/**
 * `LeafError`: the two-kind error of Leaf. `.leaf` is a transfer failure (with the
 * response headers, if any); `.parse` is a failure to decode a body that did arrive.
 * Every accessor, description and factory is a `switch` on the case.
 */
module Errors {
  import opened Wrappers
  import opened Text
  import opened LeafTypes

  /** Any Swift `Error` that reaches Leaf: one of its own, or a platform error with its code and description. */
  datatype AnyError = FromLeaf(error: LeafError) | Native(nativeCode: int, nativeDescription: string)

  /** `LeafError`, with its two cases `.leaf` and `.parse`. */
  datatype LeafError =
    | Leaf(code: Option<int>, message: string, headers: Option<map<string, string>>,
           partial: Option<Payload>, underlying: Option<AnyError>)
    | Parse(code: Option<int>, message: string, partial: Option<Payload>, underlying: Option<AnyError>)

  /** The keys of `errorUserInfo`, as Foundation spells them. */
  const DescriptionKey: string := "NSLocalizedDescription"
  const FailureReasonKey: string := "NSLocalizedFailureReason"
  const UnderlyingErrorKey: string := "NSUnderlyingError"

  /** A value stored in `errorUserInfo`: text or an error. */
  datatype InfoValue = Text(text: string) | Cause(cause: AnyError)

  /** `errorCode`: the stored code, else 0 for `.leaf` and 1 for `.parse`. */
  function ErrorCode(e: LeafError): (r: int)
    ensures e.code.Some? ==> r == e.code.value
    ensures e.code.None? ==> (r == 0 <==> e.Leaf?) && (r == 1 <==> e.Parse?)
  {
    match e
    case Leaf(c, _, _, _, _) => c.GetOr(0)
    case Parse(c, _, _, _) => c.GetOr(1)
  }

  /** `error._code` of an arbitrary error; a `LeafError` reports its `errorCode`. */
  function AnyCode(err: AnyError): int
  {
    match err
    case FromLeaf(e) => ErrorCode(e)
    case Native(c, _) => c
  }

  /** `error.localizedDescription` of an arbitrary error. */
  function AnyDescription(err: AnyError): string
    decreases err, 1
  {
    match err
    case FromLeaf(e) => LocalizedDescription(e)
    case Native(_, d) => d
  }

  /**
   * `localizedDescription`: the message, followed by the underlying error's description
   * when there is one and it says something other than the message.
   */
  function LocalizedDescription(e: LeafError): (r: string)
    ensures e.message <= r
    ensures r == e.message <==> e.underlying.None? || AnyDescription(e.underlying.value) == e.message
    ensures r != e.message ==> r == e.message + " " + AnyDescription(e.underlying.value)
    decreases e, 0
  {
    if e.underlying.Some? && AnyDescription(e.underlying.value) != e.message
    then e.message + " " + AnyDescription(e.underlying.value)
    else e.message
  }

  /** `code`: the stored code or else `_code`, which for a `LeafError` is `errorCode`; never `nil`. */
  function Code(e: LeafError): (r: Option<int>)
    ensures r == Some(ErrorCode(e))
  {
    e.code.OrElse(Some(ErrorCode(e)))
  }

  /** `underlying` */
  function Underlying(e: LeafError): Option<AnyError>
  {
    e.underlying
  }

  /** `message`: the stored message, which is never `nil`. */
  function Message(e: LeafError): (r: Option<string>)
    ensures r == Some(e.message)
  {
    Some(e.message)
  }

  /** `headers`: the stored map for `.leaf`, always `nil` for `.parse`. */
  function Headers(e: LeafError): (r: Option<map<string, string>>)
    ensures e.Parse? ==> r.None?
    ensures e.Leaf? ==> r == e.headers
  {
    match e
    case Leaf(_, _, h, _, _) => h
    case Parse(_, _, _, _) => None
  }

  /** `debugDescription`: the stored code and a space before the localized description, when a code is stored. */
  function DebugDescription(e: LeafError): (r: string)
    ensures e.code.None? ==> r == LocalizedDescription(e)
    ensures e.code.Some? ==> r == IntToString(e.code.value) + " " + LocalizedDescription(e)
  {
    if e.code.Some? then IntToString(e.code.value) + " " + LocalizedDescription(e)
    else LocalizedDescription(e)
  }

  /** `errorUserInfo`: description and failure reason always, the underlying error when present. */
  function UserInfo(e: LeafError): (r: map<string, InfoValue>)
    ensures DescriptionKey in r && r[DescriptionKey] == Text(LocalizedDescription(e))
    ensures FailureReasonKey in r && r[FailureReasonKey] == Text(e.message)
    ensures UnderlyingErrorKey in r <==> e.underlying.Some?
    ensures e.underlying.Some? ==> r[UnderlyingErrorKey] == Cause(e.underlying.value)
    ensures r.Keys <= {DescriptionKey, FailureReasonKey, UnderlyingErrorKey}
  {
    var base := map[DescriptionKey := Text(LocalizedDescription(e)), FailureReasonKey := Text(e.message)];
    if e.underlying.Some? then base[UnderlyingErrorKey := Cause(e.underlying.value)] else base
  }

  /** `LeafError.unknown` */
  function Unknown(): (r: LeafError)
    ensures r.Leaf? && r.code == Some(0) && r.message == "Unknown"
    ensures r.headers.None? && r.partial.None? && r.underlying.None?
  {
    Leaf(Some(0), "Unknown", None, None, None)
  }

  /** `leafError(from:)`: a `.leaf` error carrying the error's code and description, with the error as cause. */
  function LeafErrorFrom(err: AnyError): (r: LeafError)
    ensures r.Leaf? && r.code == Some(AnyCode(err)) && r.underlying == Some(err)
    ensures r.headers.None? && r.partial.None?
    ensures LocalizedDescription(r) == AnyDescription(err)
  {
    Leaf(Some(AnyCode(err)), AnyDescription(err), None, None, Some(err))
  }

  /** `parseError(from:)`: the same, as a `.parse` error. */
  function ParseErrorFrom(err: AnyError): (r: LeafError)
    ensures r.Parse? && r.code == Some(AnyCode(err)) && r.underlying == Some(err) && r.partial.None?
    ensures LocalizedDescription(r) == AnyDescription(err)
  {
    Parse(Some(AnyCode(err)), AnyDescription(err), None, Some(err))
  }

  /**
   * The private `handle(_:_:_:)`: a `.parse` error thrown by a transformation keeps its
   * message and object, and takes the context's code and underlying error only where it
   * has none of its own; any other `LeafError` passes through. It force-casts its input
   * with `as!`, so it demands a `LeafError`.
   */
  function HandleTransformError(thrown: AnyError, code: Option<int>, underlying: Option<AnyError>): (r: AnyError)
    requires thrown.FromLeaf?
    ensures r.FromLeaf? && r.error.Parse? == thrown.error.Parse?
    ensures thrown.error.Leaf? ==> r == thrown
    ensures thrown.error.Parse? ==>
      && r.error.message == thrown.error.message
      && r.error.partial == thrown.error.partial
      && r.error.code == (if thrown.error.code.Some? then thrown.error.code else code)
      && r.error.underlying == (if thrown.error.underlying.Some? then thrown.error.underlying else underlying)
  {
    match thrown.error
    case Parse(tc, m, o, tu) => FromLeaf(Parse(tc.OrElse(code), m, o, tu.OrElse(underlying)))
    case Leaf(_, _, _, _, _) => thrown
  }

  /**
   * `object()` / `decode()` on an error: the transformation of the error's own object,
   * given as its outcome; a failure is rethrown through the context merge with this
   * error's stored code and underlying error.
   */
  function Transform<T>(e: LeafError, transformed: Result<T, AnyError>): (r: Result<T, AnyError>)
    requires transformed.Failure? ==> transformed.error.FromLeaf?
    ensures transformed.Success? ==> r == transformed
    ensures transformed.Failure? ==> r == Failure(HandleTransformError(transformed.error, e.code, e.underlying))
  {
    match transformed
    case Success(v) => Success(v)
    case Failure(err) => Failure(HandleTransformError(err, e.code, e.underlying))
  }

  // ---------------------------------------------------------------------------
  // Lemmas

  /** Merging a context twice is merging it once: the merge only fills what is missing. */
  lemma HandleTransformIdempotent(thrown: AnyError, code: Option<int>, underlying: Option<AnyError>)
    requires thrown.FromLeaf?
    ensures HandleTransformError(HandleTransformError(thrown, code, underlying), code, underlying)
         == HandleTransformError(thrown, code, underlying)
  {
  }

  /** Once a `.parse` error has a code and an underlying error, no context changes it. */
  lemma HandleTransformKeepsComplete(thrown: AnyError, code: Option<int>, underlying: Option<AnyError>)
    requires thrown.FromLeaf? && thrown.error.code.Some? && thrown.error.underlying.Some?
    ensures HandleTransformError(thrown, code, underlying) == thrown
  {
  }

  /** The `errorCode` of `unknown` is 0 and its description is its message. */
  lemma UnknownDescriptions()
    ensures ErrorCode(Unknown()) == 0
    ensures LocalizedDescription(Unknown()) == "Unknown"
    ensures DebugDescription(Unknown()) == "0 Unknown"
  {
    assert IntToString(0) == "0";
  }

  /** Wrapping a platform error and rewrapping the result nests it once more as the cause, keeping code and text. */
  lemma {:induction false} LeafErrorFromKeepsDescription(err: AnyError)
    ensures AnyDescription(FromLeaf(LeafErrorFrom(err))) == AnyDescription(err)
    ensures AnyCode(FromLeaf(LeafErrorFrom(err))) == AnyCode(err)
  {
  }

  /** The debug description always ends with the localized description, which starts with the message. */
  lemma {:induction false} DescriptionsNest(e: LeafError)
    ensures e.message <= LocalizedDescription(e)
    ensures exists p :: DebugDescription(e) == p + LocalizedDescription(e)
  {
    if e.code.Some? {
      var p := IntToString(e.code.value) + " ";
      assert DebugDescription(e) == p + LocalizedDescription(e);
    } else {
      assert DebugDescription(e) == "" + LocalizedDescription(e);
    }
  }
}
