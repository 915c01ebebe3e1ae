/**
 * `LeafRequest`: the immutable description of one HTTP request, its equality (address
 * and method only), its hash, its one-line description and its curl-style debug
 * description.
 */
module Requests {
  import opened Wrappers
  import opened Text
  import opened LeafTypes
  import opened KeyOrder
  import Query

  /** `Data`: a byte buffer; its `count` is an `Int`. */
  type Data = d: seq<Byte> | |d| <= Int64Max

  datatype LeafRequest = LeafRequest(
    url: Url,
    cache: CachePolicy,
    timeout: Seconds,
    mainDocumentURL: Option<Url>,
    serviceType: ServiceType,
    contentType: Option<ContentType>,
    contentLength: Option<UInt64>,
    accept: Option<ContentType>,
    acceptEncoding: Option<seq<ContentEncoding>>,
    cacheControl: Option<seq<CacheControl>>,
    allowsCellularAccess: bool,
    httpMethod: Method,
    headers: Option<map<string, string>>,
    body: Option<Data>,
    bodyStream: Option<Stream>,
    handleCookies: bool,
    usePipelining: bool,
    authorization: Authorization)

  /** `init(_ url: URL, ...)`, each argument with the source's default. */
  function NewRequest(
    url: Url,
    cache: CachePolicy := UseProtocolCachePolicy,
    timeout: Seconds := 60.0,
    mainDocumentURL: Option<Url> := None,
    serviceType: ServiceType := Default,
    contentType: Option<ContentType> := None,
    contentLength: Option<UInt64> := None,
    accept: Option<ContentType> := None,
    acceptEncoding: Option<seq<ContentEncoding>> := None,
    cacheControl: Option<seq<CacheControl>> := None,
    allowsCellularAccess: bool := true,
    httpMethod: Method := GET,
    headers: Option<map<string, string>> := None,
    body: Option<Data> := None,
    bodyStream: Option<Stream> := None,
    handleCookies: bool := true,
    usePipelining: bool := true,
    authorization: Authorization := NoAuthorization): LeafRequest
  {
    LeafRequest(url, cache, timeout, mainDocumentURL, serviceType, contentType, contentLength, accept,
                acceptEncoding, cacheControl, allowsCellularAccess, httpMethod, headers, body, bodyStream,
                handleCookies, usePipelining, authorization)
  }

  /**
   * `init?(_ urlString: String, ...)` with every other argument defaulted: `nil` exactly
   * when `URL(string:)`, given here as `parse`, rejects the text.
   */
  function NewRequestFromString(parse: string -> Option<Url>, urlString: string): (r: Option<LeafRequest>)
    ensures r.Some? <==> parse(urlString).Some?
    ensures r.Some? ==> r.value.url == parse(urlString).value && r.value.httpMethod == GET
  {
    match parse(urlString)
    case None => None
    case Some(u) => Some(NewRequest(u))
  }

  // ---------------------------------------------------------------------------
  // Equality and hashing

  /** `==`: the same address and the same method; every other field is ignored. */
  predicate Equal(a: LeafRequest, b: LeafRequest)
  {
    a.url == b.url && a.httpMethod == b.httpMethod
  }

  /**
   * `hashValue` as written: `url.hashValue + httpMethod.hashValue` with Swift's checked
   * `+`, which traps when the sum leaves the range of `Int`; `None` is that trap. The
   * two component hashes come from the platform and are given as functions.
   */
  function HashAsWritten(urlHash: Url -> Int64, methodHash: Method -> Int64, r: LeafRequest): (h: Option<Int64>)
    ensures h.Some? <==> Int64Min <= urlHash(r.url) + methodHash(r.httpMethod) <= Int64Max
    ensures h.Some? ==> h.value == urlHash(r.url) + methodHash(r.httpMethod)
  {
    var sum := urlHash(r.url) + methodHash(r.httpMethod);
    if Int64Min <= sum <= Int64Max then Some(sum) else None
  }

  /** Two's-complement addition of 64-bit integers, Swift's `&+`. */
  function WrappingAdd(a: Int64, b: Int64): (r: Int64)
    ensures (r - (a + b)) % UInt64Limit == 0
    ensures Int64Min <= a + b <= Int64Max ==> r == a + b
  {
    var sum := a + b;
    if sum > Int64Max then sum - UInt64Limit
    else if sum < Int64Min then sum + UInt64Limit
    else sum
  }

  /** `hashValue` as intended: the same combination with wrapping addition, which never traps. */
  function Hash(urlHash: Url -> Int64, methodHash: Method -> Int64, r: LeafRequest): (h: Int64)
    ensures HashAsWritten(urlHash, methodHash, r).Some? ==> h == HashAsWritten(urlHash, methodHash, r).value
  {
    WrappingAdd(urlHash(r.url), methodHash(r.httpMethod))
  }

  /** Equality is an equivalence relation. */
  lemma EqualIsEquivalence(a: LeafRequest, b: LeafRequest, c: LeafRequest)
    ensures Equal(a, a)
    ensures Equal(a, b) ==> Equal(b, a)
    ensures Equal(a, b) && Equal(b, c) ==> Equal(a, c)
  {
  }

  /** Equal requests hash equally (the `Hashable` contract), whatever the component hashes. */
  lemma EqualRequestsHashEqually(urlHash: Url -> Int64, methodHash: Method -> Int64, a: LeafRequest, b: LeafRequest)
    requires Equal(a, b)
    ensures Hash(urlHash, methodHash, a) == Hash(urlHash, methodHash, b)
    ensures HashAsWritten(urlHash, methodHash, a) == HashAsWritten(urlHash, methodHash, b)
  {
  }

  /** The hash as written traps for a request whose component hashes sum past `Int.max`. */
  lemma HashAsWrittenTraps(r: LeafRequest)
    ensures HashAsWritten(u => Int64Max, m => 1, r).None?
    ensures Hash(u => Int64Max, m => 1, r) == Int64Min
  {
  }

  // ---------------------------------------------------------------------------
  // Descriptions

  /** `description`: the method, one space, the absolute address. */
  function Description(r: LeafRequest): string
  {
    r.httpMethod.RawValue() + " " + r.url.AbsoluteString()
  }

  /** The description reads back: its first space-separated word is the method. */
  lemma DescriptionStartsWithMethod(r: LeafRequest)
    ensures Split(Description(r), " ")[0] == r.httpMethod.RawValue()
    ensures MethodOf(Split(Description(r), " ")[0]) == Some(r.httpMethod)
    ensures Description(r)[|r.httpMethod.RawValue()| + 1..] == r.url.AbsoluteString()
  {
    var m := r.httpMethod.RawValue();
    assert forall k :: 0 <= k < |m| ==> m[k] != ' ';
    IndexOfSkipsPrefix(m, " ", r.url.AbsoluteString());
    assert Description(r)[..|m|] == m;
    MethodRawValueInverse(r.httpMethod);
  }

  /** The separator `debugDescription` joins its components with: space, backslash, newline, tab. */
  const Separator: string := " \\\n\t"

  /** The header-map fields `debugDescription` skips, because dedicated fields print them. */
  const ExcludedFields: set<string> := {"Content-Type", "Accept", "Accept-Encoding", "Cache-Control", "Content-Length"}

  /** `-H "field: value"` */
  function HeaderLine(field: string, value: string): string
  {
    "-H \"" + field + ": " + value + "\""
  }

  /** The header line for `field` of `headers` (empty for a field it does not hold). */
  function HeaderLineOf(headers: map<string, string>, field: string): string
  {
    if field in headers then HeaderLine(field, headers[field]) else ""
  }

  /** The fields of the header loop's `where` clause, in iteration order. */
  function ShownFields(order: seq<string>): (r: seq<string>)
    ensures forall f :: f in r <==> f in order && f !in ExcludedFields
  {
    if |order| == 0 then []
    else
      var init := ShownFields(order[..|order| - 1]);
      var last := order[|order| - 1];
      assert order == order[..|order| - 1] + [last];
      if last in ExcludedFields then init else init + [last]
  }

  /** The header map's lines, in iteration order. */
  function HeaderLines(headers: map<string, string>, order: seq<string>): seq<string>
  {
    Map(ShownFields(order), f => HeaderLineOf(headers, f))
  }

  /** `body`: the two replacements that escape a body for the shell. */
  function EscapeBody(text: string): string
  {
    ReplaceAll(ReplaceAll(text, "\\\"", "\\\\\""), "\"", "\\\"")
  }

  /** The 0 or 1 lines an `if let` contributes. */
  function Present(line: Option<string>): seq<string>
  {
    if line.Some? then [line.value] else []
  }

  function ContentTypeLine(vocab: Vocabulary, r: LeafRequest): Option<string>
  {
    if r.contentType.Some? then Some(HeaderLine("Content-Type", vocab.contentTypeRaw(r.contentType.value))) else None
  }

  function ContentLengthLine(r: LeafRequest): Option<string>
  {
    if r.contentLength.Some? then Some(HeaderLine("Content-Length", NatToString(r.contentLength.value))) else None
  }

  function AcceptLine(vocab: Vocabulary, r: LeafRequest): Option<string>
  {
    if r.accept.Some? then Some(HeaderLine("Accept", vocab.contentTypeRaw(r.accept.value))) else None
  }

  /** `acceptEncoding.compactMap({$0.rawValue}).joined(separator: ", ")` */
  function EncodingsText(encodings: seq<ContentEncoding>): string
  {
    Join(Map(encodings, (e: ContentEncoding) => e.RawValue()), ", ")
  }

  /** `cacheControl.compactMap({$0.rawValue}).joined(separator: ", ")` */
  function CacheControlText(vocab: Vocabulary, directives: seq<CacheControl>): string
  {
    Join(Map(directives, vocab.cacheControlRaw), ", ")
  }

  function AcceptEncodingLine(r: LeafRequest): Option<string>
  {
    if r.acceptEncoding.Some? then Some(HeaderLine("Accept-Encoding", EncodingsText(r.acceptEncoding.value))) else None
  }

  function CacheControlLine(vocab: Vocabulary, r: LeafRequest): Option<string>
  {
    if r.cacheControl.Some? then Some(HeaderLine("Cache-Control", CacheControlText(vocab, r.cacheControl.value))) else None
  }

  function AuthorizationLineOf(vocab: Vocabulary, r: LeafRequest): Option<string>
  {
    if r.authorization != NoAuthorization then Some(AuthorizationLine(vocab, r.authorization)) else None
  }

  /** The lines of the dedicated fields, each present only when its field is. */
  function FieldLines(vocab: Vocabulary, r: LeafRequest): seq<string>
  {
    Present(ContentTypeLine(vocab, r)) + Present(ContentLengthLine(r)) + Present(AcceptLine(vocab, r))
    + Present(AcceptEncodingLine(r)) + Present(CacheControlLine(vocab, r)) + Present(AuthorizationLineOf(vocab, r))
  }

  function AuthorizationLine(vocab: Vocabulary, a: Authorization): string
  {
    HeaderLine("Authorization", vocab.authorizationRaw(a))
  }

  /**
   * `String(data: body, encoding: .utf8)`: `text` is the body's UTF-8 decoding, or
   * `None` when there is no body or it is not valid UTF-8.
   */
  ghost predicate DecodesAs(body: Option<Data>, text: Option<string>)
  {
    && (body.None? ==> text.None?)
    && (text.Some? ==> body.Some? && Query.Utf8String(text.value) == body.value)
    && (body.Some? && text.None? ==> forall t :: Query.Utf8String(t) != body.value)
  }

  function MethodLines(r: LeafRequest): seq<string>
  {
    if r.httpMethod != GET then ["-X " + r.httpMethod.RawValue()] else []
  }

  function HeaderMapLines(r: LeafRequest, order: seq<string>): seq<string>
  {
    if r.headers.Some? then HeaderLines(r.headers.value, order) else []
  }

  function BodyLines(bodyText: Option<string>): seq<string>
  {
    if bodyText.Some? then ["-d \"" + EscapeBody(bodyText.value) + "\""] else []
  }

  function UrlLine(r: LeafRequest): string
  {
    "\"" + r.url.AbsoluteString() + "\""
  }

  /** The components `debugDescription` joins, in order. */
  function DebugComponents(vocab: Vocabulary, r: LeafRequest, order: seq<string>, bodyText: Option<string>): seq<string>
  {
    ["$ curl -i"] + MethodLines(r) + LaterLines(vocab, r, order, bodyText)
  }

  /** The components after the method flag: header map, dedicated fields, body, URL. */
  function LaterLines(vocab: Vocabulary, r: LeafRequest, order: seq<string>, bodyText: Option<string>): seq<string>
  {
    HeaderMapLines(r, order) + FieldLines(vocab, r) + BodyLines(bodyText) + [UrlLine(r)]
  }

  /**
   * `debugDescription`: the appends of the source, the header map visited in its
   * iteration order `order`; `bodyText` is the body's text decoding.
   */
  method DebugDescription(vocab: Vocabulary, r: LeafRequest, order: seq<string>, bodyText: Option<string>)
    returns (d: string)
    requires r.headers.Some? ==> IsEnumeration(order, r.headers.value.Keys)
    requires DecodesAs(r.body, bodyText)
    ensures d == Join(DebugComponents(vocab, r, order, bodyText), Separator)
  {
    var components := ["$ curl -i"];
    if r.httpMethod != GET {
      components := components + ["-X " + r.httpMethod.RawValue()];
    }
    ghost var front := ["$ curl -i"] + MethodLines(r);
    assert components == front;
    ghost var acc := HeaderMapLines(r, order);
    if r.headers.Some? {
      components := AppendHeaderLines(components, r.headers.value, order);
      assert acc == HeaderLines(r.headers.value, order);
    } else {
      Step(front, [], []);
    }
    assert components == front + acc;
    components := AppendFieldLines(components, vocab, r);
    Step(front, acc, FieldLines(vocab, r));
    acc := acc + FieldLines(vocab, r);
    if bodyText.Some? {
      components := components + ["-d \"" + EscapeBody(bodyText.value) + "\""];
    }
    Step(front, acc, BodyLines(bodyText));
    acc := acc + BodyLines(bodyText);
    assert components == front + acc;
    components := components + [UrlLine(r)];
    Step(front, acc, [UrlLine(r)]);
    acc := acc + [UrlLine(r)];
    assert acc == LaterLines(vocab, r, order, bodyText);
    d := Join(components, Separator);
  }

  /** The `for (field, value) in headers where ...` loop of `debugDescription`. */
  method AppendHeaderLines(components: seq<string>, headers: map<string, string>, order: seq<string>)
    returns (out: seq<string>)
    requires IsEnumeration(order, headers.Keys)
    ensures out == components + HeaderLines(headers, order)
  {
    out := components;
    for i := 0 to |order|
      invariant out == components + HeaderLines(headers, order[..i])
    {
      var field := order[i];
      assert order[..i + 1] == order[..i] + [field];
      assert order[..i + 1][..i] == order[..i];
      if field !in ExcludedFields {
        out := out + [HeaderLine(field, headers[field])];
      }
    }
    assert order[..|order|] == order;
  }

  /** The `if let` appends for the dedicated fields, each only when its field is present, in the source's order. */
  method AppendFieldLines(components: seq<string>, vocab: Vocabulary, r: LeafRequest) returns (out: seq<string>)
    ensures out == components + FieldLines(vocab, r)
  {
    out := AppendPresent(components, ContentTypeLine(vocab, r));
    out := AppendPresent(out, ContentLengthLine(r));
    out := AppendPresent(out, AcceptLine(vocab, r));
    out := AppendPresent(out, AcceptEncodingLine(r));
    out := AppendPresent(out, CacheControlLine(vocab, r));
    out := AppendPresent(out, AuthorizationLineOf(vocab, r));
    Regroup(components, Present(ContentTypeLine(vocab, r)), Present(ContentLengthLine(r)), Present(AcceptLine(vocab, r)),
            Present(AcceptEncodingLine(r)), Present(CacheControlLine(vocab, r)), Present(AuthorizationLineOf(vocab, r)));
  }

  lemma Regroup(s: seq<string>, a: seq<string>, b: seq<string>, c: seq<string>, d: seq<string>, e: seq<string>, g: seq<string>)
    ensures s + a + b + c + d + e + g == s + (a + b + c + d + e + g)
  {
  }

  /** `if let line = line { components.append(line) }` */
  method AppendPresent(components: seq<string>, line: Option<string>) returns (out: seq<string>)
    ensures out == components + Present(line)
  {
    out := components;
    if line.Some? {
      out := out + [line.value];
    }
  }

  lemma Step(a: seq<string>, b: seq<string>, c: seq<string>)
    ensures (a + b) + c == a + (b + c)
    ensures a + [] == a
  {
  }

  // ---------------------------------------------------------------------------
  // Lemmas about the debug description

  /** It starts with `$ curl -i` and ends with the quoted absolute address. */
  lemma DebugFrame(vocab: Vocabulary, r: LeafRequest, order: seq<string>, bodyText: Option<string>)
    ensures var d := Join(DebugComponents(vocab, r, order, bodyText), Separator);
      var quoted := "\"" + r.url.AbsoluteString() + "\"";
      && "$ curl -i" <= d
      && |quoted| <= |d| && d[|d| - |quoted|..] == quoted
  {
    var cs := DebugComponents(vocab, r, order, bodyText);
    JoinStartsWith(cs, Separator);
    JoinEndsWith(cs, Separator);
  }

  /** The second component is `-X METHOD` exactly when the method is not GET. */
  lemma DebugMethodFlag(vocab: Vocabulary, r: LeafRequest, order: seq<string>, bodyText: Option<string>)
    requires r.headers.Some? ==> IsEnumeration(order, r.headers.value.Keys)
    ensures var cs := DebugComponents(vocab, r, order, bodyText);
      |cs| >= 2 && |cs[1]| >= 2 && (cs[1][..2] == "-X" <==> r.httpMethod != GET)
    ensures r.httpMethod != GET ==> DebugComponents(vocab, r, order, bodyText)[1] == "-X " + r.httpMethod.RawValue()
  {
    var cs := DebugComponents(vocab, r, order, bodyText);
    var rest := LaterLines(vocab, r, order, bodyText);
    if r.httpMethod == GET {
      LaterLinesAreNotFlags(vocab, r, order, bodyText);
      assert rest[0] in rest;
      assert cs[1] == rest[0];
      assert cs[1][..2][0] == cs[1][0] && cs[1][..2][1] == cs[1][1];
    } else {
      assert cs[1] == "-X " + r.httpMethod.RawValue();
    }
  }

  /** A component of at least two characters whose second is not the `X` of `-X`. */
  predicate NotFlag(line: string)
  {
    |line| >= 2 && (line[0] != '-' || line[1] != 'X')
  }

  /** Every component after the method flag is a header, body or URL line, none of them a `-X`. */
  lemma LaterLinesAreNotFlags(vocab: Vocabulary, r: LeafRequest, order: seq<string>, bodyText: Option<string>)
    requires r.headers.Some? ==> IsEnumeration(order, r.headers.value.Keys)
    ensures forall x | x in LaterLines(vocab, r, order, bodyText) :: NotFlag(x)
  {
    HeaderMapLinesAreNotFlags(r, order);
    FieldLinesAreNotFlags(vocab, r);
    assert forall x | x in BodyLines(bodyText) :: NotFlag(x);
    assert NotFlag(UrlLine(r));
  }

  lemma HeaderMapLinesAreNotFlags(r: LeafRequest, order: seq<string>)
    requires r.headers.Some? ==> IsEnumeration(order, r.headers.value.Keys)
    ensures forall x | x in HeaderMapLines(r, order) :: NotFlag(x)
  {
    forall x | x in HeaderMapLines(r, order) ensures NotFlag(x) {
      var headers := r.headers.value;
      var shown := ShownFields(order);
      var hs := HeaderLines(headers, order);
      var i :| 0 <= i < |hs| && hs[i] == x;
      var f := shown[i];
      assert f in shown && f in order && f in headers;
      assert x == HeaderLine(f, headers[f]);
      HeaderLineIsNotFlag(f, headers[f]);
    }
  }

  /** A header line starts with `-H`. */
  lemma HeaderLineIsNotFlag(field: string, value: string)
    ensures NotFlag(HeaderLine(field, value))
  {
    var x := HeaderLine(field, value);
    assert x == "-H \"" + (field + ": " + value + "\"");
  }

  lemma FieldLinesAreNotFlags(vocab: Vocabulary, r: LeafRequest)
    ensures forall x | x in FieldLines(vocab, r) :: NotFlag(x)
  {
    FieldLinesShape(vocab, r);
  }

  /** `-H "` followed by the field name. */
  lemma HeaderLineChars(field: string, value: string)
    requires |field| >= 2
    ensures var x := HeaderLine(field, value);
      |x| >= 6 && x[0] == '-' && x[1] == 'H' && x[4] == field[0] && x[5] == field[1]
  {
  }

  /**
   * Each dedicated line is a `-H` line; only the Authorization line has `u` as the
   * second letter of its field name.
   */
  lemma FieldLinesShape(vocab: Vocabulary, r: LeafRequest)
    ensures forall x | x in FieldLines(vocab, r) :: DedicatedShape(x, r)
  {
    var a, b, c := Present(ContentTypeLine(vocab, r)), Present(ContentLengthLine(r)), Present(AcceptLine(vocab, r));
    var d, e := Present(AcceptEncodingLine(r)), Present(CacheControlLine(vocab, r));
    var g := Present(AuthorizationLineOf(vocab, r));
    assert FieldLines(vocab, r) == a + b + c + d + e + g;
    OneLineShape(a, "Content-Type", r);
    OneLineShape(b, "Content-Length", r);
    OneLineShape(c, "Accept", r);
    OneLineShape(d, "Accept-Encoding", r);
    OneLineShape(e, "Cache-Control", r);
    if r.authorization != NoAuthorization {
      HeaderLineChars("Authorization", vocab.authorizationRaw(r.authorization));
    }
    assert forall x | x in g :: DedicatedShape(x, r);
  }

  /** A dedicated line for a field other than Authorization has the dedicated shape. */
  lemma OneLineShape(lines: seq<string>, field: string, r: LeafRequest)
    requires |field| >= 2 && field[1] != 'u'
    requires forall x | x in lines :: exists v :: x == HeaderLine(field, v)
    ensures forall x | x in lines :: DedicatedShape(x, r)
  {
    forall x | x in lines ensures DedicatedShape(x, r) {
      var v :| x == HeaderLine(field, v);
      HeaderLineChars(field, v);
    }
  }

  /** A `-H` line, whose field name has `u` second only when an authorization is set. */
  predicate DedicatedShape(x: string, r: LeafRequest)
  {
    |x| >= 6 && x[0] == '-' && x[1] == 'H' && (x[5] == 'u' ==> r.authorization != NoAuthorization)
  }

  /**
   * The header map contributes a line for a field exactly when the field is in the
   * map and is not one of the five that dedicated fields print.
   */
  lemma DebugShownFields(headers: map<string, string>, order: seq<string>, field: string)
    requires IsEnumeration(order, headers.Keys)
    ensures field in ShownFields(order) <==> field in headers && field !in ExcludedFields
    ensures field in ShownFields(order) ==> HeaderLine(field, headers[field]) in HeaderLines(headers, order)
  {
    if field in ShownFields(order) {
      var i :| 0 <= i < |ShownFields(order)| && ShownFields(order)[i] == field;
      assert HeaderLines(headers, order)[i] == HeaderLineOf(headers, field);
    }
  }

  /** The dedicated Authorization line is printed exactly when the authorization is not `.none`. */
  lemma DebugAuthorization(vocab: Vocabulary, r: LeafRequest)
    ensures r.authorization != NoAuthorization ==> AuthorizationLine(vocab, r.authorization) in FieldLines(vocab, r)
    ensures r.authorization == NoAuthorization ==> forall a :: AuthorizationLine(vocab, a) !in FieldLines(vocab, r)
  {
    if r.authorization == NoAuthorization {
      FieldLinesShape(vocab, r);
      forall a ensures AuthorizationLine(vocab, a) !in FieldLines(vocab, r) {
        HeaderLineChars("Authorization", vocab.authorizationRaw(a));
      }
    }
  }

  /** In the `-d` argument every double quote is escaped with a backslash. */
  lemma DebugBodyQuotesEscaped(text: string)
    ensures QuotesPreceded(EscapeBody(text))
  {
    QuotesEscaped(ReplaceAll(text, "\\\"", "\\\\\""));
  }
}
