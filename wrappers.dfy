/** Optional values and results, as Swift's `Optional` and `throws` are used by Leaf. */
module Wrappers {

  /** Swift's `Optional`: `None` is `nil`. */
  datatype Option<+T> = None | Some(value: T) {

    /** `self ?? other` */
    function GetOr(other: T): T {
      match this
      case Some(v) => v
      case None => other
    }

    /** `self ?? other` for an optional fallback */
    function OrElse(other: Option<T>): Option<T> {
      if Some? then this else other
    }
  }

  /** The outcome of a Swift call that may throw. */
  datatype Result<+R, +E> = Success(value: R) | Failure(error: E)
}
