/**
 * `LeafResponse`: what a transfer produced. Its initialiser turns the content-length
 * sentinel −1 into "absent"; its transformation accessors enrich a parse failure with
 * the response's status code and object; equality is by address and never holds when
 * an address is missing.
 */
module Responses {
  import opened Wrappers
  import opened Text
  import opened LeafTypes
  import opened Errors

  /** The `weak var leafTask`: a reference to the LeafTask, kept only by identity. */
  datatype TaskRef = TaskRef(id: nat)

  datatype LeafResponse = LeafResponse(
    url: Option<Url>,
    mimeType: Option<string>,
    contentLength: Option<Int64>,
    textEncoding: Option<string>,
    filename: Option<string>,
    statusCode: Option<int>,
    headers: Option<map<string, string>>,
    localizedDescription: Option<string>,
    userInfo: Option<Payload>,
    leafTask: Option<TaskRef>,
    responseObject: Option<Payload>,
    response: Option<NativeResponse>)

  /** The value of `contentLength` that means "unknown". */
  const UnknownLength: Int64 := -1

  /** `init(_ url: URL? = nil, ..., contentLength: Int64 = -1, ...)`: the sentinel becomes `nil`. */
  function NewResponse(
    url: Option<Url> := None,
    mimeType: Option<string> := None,
    contentLength: Int64 := UnknownLength,
    textEncoding: Option<string> := None,
    filename: Option<string> := None,
    statusCode: Option<int> := None,
    headers: Option<map<string, string>> := None,
    localizedDescription: Option<string> := None,
    userInfo: Option<Payload> := None,
    leafTask: Option<TaskRef>,
    responseObject: Option<Payload> := None,
    response: Option<NativeResponse>): (r: LeafResponse)
    ensures r.contentLength.None? <==> contentLength == UnknownLength
    ensures r.contentLength.Some? ==> r.contentLength.value == contentLength
    ensures r.contentLength != Some(UnknownLength)
  {
    LeafResponse(url, mimeType, if contentLength != UnknownLength then Some(contentLength) else None,
                 textEncoding, filename, statusCode, headers, localizedDescription, userInfo, leafTask,
                 responseObject, response)
  }

  // ---------------------------------------------------------------------------
  // Transformations of the response object

  /**
   * The private `handle(_:)`: a `.parse` error takes the response's status code and
   * object where it has none of its own; every other error passes through.
   */
  function Handle(resp: LeafResponse, err: AnyError): (r: AnyError)
    ensures !(err.FromLeaf? && err.error.Parse?) ==> r == err
    ensures err.FromLeaf? && err.error.Parse? ==>
      && r.FromLeaf? && r.error.Parse?
      && r.error.code == (if err.error.code.Some? then err.error.code else resp.statusCode)
      && r.error.partial == (if err.error.partial.Some? then err.error.partial else resp.responseObject)
      && r.error.message == err.error.message
      && r.error.underlying == err.error.underlying
  {
    match err
    case Native(_, _) => err
    case FromLeaf(e) =>
      match e
      case Parse(transformCode, message, partial, underlying) =>
        FromLeaf(Parse(transformCode.OrElse(resp.statusCode), message, partial.OrElse(resp.responseObject), underlying))
      case Leaf(_, _, _, _, _) => err
  }

  /**
   * `data()`, `object()` and `decode()`: the outcome of `LeafTransformer` on the response
   * object, given here, with a failure passed through `handle`.
   */
  function Transformed<T>(resp: LeafResponse, outcome: Result<T, AnyError>): (r: Result<T, AnyError>)
    ensures outcome.Success? ==> r == outcome
    ensures outcome.Failure? ==> r == Failure(Handle(resp, outcome.error))
  {
    match outcome
    case Success(v) => Success(v)
    case Failure(err) => Failure(Handle(resp, err))
  }

  // ---------------------------------------------------------------------------
  // Equality

  /** `==`: both addresses present and equal. */
  predicate Equal(a: LeafResponse, b: LeafResponse)
  {
    if a.url.None? || b.url.None? then false else a.url == b.url
  }

  // ---------------------------------------------------------------------------
  // Description

  /** The parts `description` writes, in order: status code, address, `(localizedDescription)`. */
  function Parts(r: LeafResponse): seq<string>
  {
    StatusPart(r) + UrlPart(r) + LocalizedPart(r)
  }

  function StatusPart(r: LeafResponse): seq<string>
  {
    if r.statusCode.Some? then [IntToString(r.statusCode.value)] else []
  }

  function UrlPart(r: LeafResponse): seq<string>
  {
    if r.url.Some? then [r.url.value.AbsoluteString()] else []
  }

  function LocalizedPart(r: LeafResponse): seq<string>
  {
    if r.localizedDescription.Some? then ["(" + r.localizedDescription.value + ")"] else []
  }

  /** `parts` without the empty parts at its front. */
  function DropLeadingEmpty(parts: seq<string>): (r: seq<string>)
    ensures |r| > 0 ==> r[0] != ""
    ensures forall i | 0 <= i < |parts| && parts[i] != "" :: |r| > 0
  {
    if |parts| == 0 then []
    else if parts[0] == "" then DropLeadingEmpty(parts[1..])
    else parts
  }

  /**
   * What `description` says: the parts joined with single spaces, where a separator
   * goes in only once something has been written.
   */
  function DescriptionText(r: LeafResponse): string
  {
    Join(DropLeadingEmpty(Parts(r)), " ")
  }

  /** `description`: a `var` string that each present part is appended to. */
  method Description(r: LeafResponse) returns (description: string)
    ensures description == DescriptionText(r)
  {
    description := "";
    ghost var parts: seq<string> := [];
    if r.statusCode.Some? {
      var statusCode := IntToString(r.statusCode.value);
      description := AppendPart(description, statusCode, parts);
      parts := parts + [statusCode];
    }
    assert parts == StatusPart(r);
    if r.url.Some? {
      var url := r.url.value.AbsoluteString();
      description := AppendPart(description, url, parts);
      parts := parts + [url];
    }
    assert parts == StatusPart(r) + UrlPart(r);
    if r.localizedDescription.Some? {
      var localizedDescription := r.localizedDescription.value;
      description := AppendPart(description, "(" + localizedDescription + ")", parts);
      parts := parts + ["(" + localizedDescription + ")"];
    }
    assert parts == StatusPart(r) + UrlPart(r) + LocalizedPart(r);
  }

  /** One step of `description`: a space first if something has been written, then the part. */
  method AppendPart(description: string, part: string, ghost parts: seq<string>) returns (d: string)
    requires description == Join(DropLeadingEmpty(parts), " ")
    ensures d == Join(DropLeadingEmpty(parts + [part]), " ")
  {
    JoinNext(parts, part);
    d := description;
    if |d| > 0 {
      d := d + " ";
    }
    d := d + part;
  }

  /** `debugDescription` is `description`. */
  method DebugDescription(r: LeafResponse) returns (d: string)
    ensures d == DescriptionText(r)
  {
    d := Description(r);
  }

  // ---------------------------------------------------------------------------
  // Lemmas

  /** One more part: a space before it exactly when something has been written. */
  lemma JoinNext(parts: seq<string>, p: string)
    ensures var d := Join(DropLeadingEmpty(parts), " ");
            Join(DropLeadingEmpty(parts + [p]), " ") == if |d| > 0 then d + " " + p else p
  {
    DropLeadingEmptySnoc(parts, p);
    var t := DropLeadingEmpty(parts);
    if |t| > 0 {
      JoinSnoc(t, p, " ");
      JoinStartsWith(t, " ");
    }
  }

  lemma {:induction false} DropLeadingEmptySnoc(parts: seq<string>, p: string)
    ensures DropLeadingEmpty(parts + [p])
         == if DropLeadingEmpty(parts) == [] then DropLeadingEmpty([p]) else DropLeadingEmpty(parts) + [p]
  {
    if |parts| > 0 {
      assert (parts + [p])[1..] == parts[1..] + [p];
      if parts[0] == "" {
        DropLeadingEmptySnoc(parts[1..], p);
      }
    }
  }

  /** When every present part says something, the description is those parts joined by spaces. */
  lemma DescriptionJoinsParts(r: LeafResponse)
    requires r.url.Some? ==> r.url.value.AbsoluteString() != ""
    ensures DescriptionText(r) == Join(Parts(r), " ")
  {
    var ps := Parts(r);
    if |ps| > 0 {
      assert ps[0] != "" by {
        if r.statusCode.Some? {
          NatToStringDigits(if r.statusCode.value < 0 then -r.statusCode.value else r.statusCode.value);
        }
      }
    }
  }

  /** The description is empty exactly when no part says anything. */
  lemma DescriptionEmpty(r: LeafResponse)
    ensures DescriptionText(r) == "" <==>
      r.statusCode.None? && r.localizedDescription.None? && (r.url.None? || r.url.value.AbsoluteString() == "")
  {
    var ps := Parts(r);
    var t := DropLeadingEmpty(ps);
    if r.statusCode.Some? || r.localizedDescription.Some? || (r.url.Some? && r.url.value.AbsoluteString() != "") {
      var i := if r.statusCode.Some? || r.localizedDescription.None? then 0 else |ps| - 1;
      if r.statusCode.Some? {
        NatToStringDigits(if r.statusCode.value < 0 then -r.statusCode.value else r.statusCode.value);
      }
      assert ps[i] != "";
      JoinStartsWith(t, " ");
    } else {
      if ps != [] {
        assert ps == [""] && ps[1..] == [];
        assert t == DropLeadingEmpty([]);
      }
      assert t == [];
      assert Join(t, " ") == "";
    }
  }

  /** A status code is what the description starts with. */
  lemma DescriptionStartsWithStatus(r: LeafResponse)
    requires r.statusCode.Some?
    ensures IntToString(r.statusCode.value) <= DescriptionText(r)
  {
    NatToStringDigits(if r.statusCode.value < 0 then -r.statusCode.value else r.statusCode.value);
    JoinStartsWith(Parts(r), " ");
  }

  /** A response without an address equals nothing, not even itself. */
  lemma EqualNeedsUrls(a: LeafResponse, b: LeafResponse)
    ensures a.url.None? || b.url.None? ==> !Equal(a, b)
    ensures a.url.Some? && b.url.Some? ==> (Equal(a, b) <==> a.url == b.url)
  {
  }

  /** Equality is symmetric and transitive; it is reflexive only on responses with an address. */
  lemma EqualIsPartialEquivalence(a: LeafResponse, b: LeafResponse, c: LeafResponse)
    ensures Equal(a, b) ==> Equal(b, a)
    ensures Equal(a, b) && Equal(b, c) ==> Equal(a, c)
    ensures Equal(a, a) <==> a.url.Some?
  {
  }

  /** Enriching twice is enriching once. */
  lemma HandleIdempotent(resp: LeafResponse, err: AnyError)
    ensures Handle(resp, Handle(resp, err)) == Handle(resp, err)
  {
  }

  /** A parse failure of a response with a status code always carries a code. */
  lemma TransformedFailureHasCode<T>(resp: LeafResponse, outcome: Result<T, AnyError>)
    requires resp.statusCode.Some? && outcome.Failure? && outcome.error.FromLeaf? && outcome.error.error.Parse?
    ensures Transformed(resp, outcome).error.error.code.Some?
  {
  }
}
