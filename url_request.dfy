/**
 * The conversion between `LeafRequest` and Foundation's `URLRequest`: the getter
 * `urlRequest` writes the dedicated fields into header fields, and `init?(URLRequest)`
 * reads them back.
 */
module URLRequests {
  import opened Wrappers
  import opened Text
  import opened LeafTypes
  import opened Requests
  import RequestBuilders

  /** A header field name with its ASCII letters in lower case: the name Foundation compares. */
  function Fold(name: string): (folded: string)
    ensures |folded| == |name|
  {
    seq(|name|, i requires 0 <= i < |name| => LowerAscii(name[i]))
  }

  function LowerAscii(c: char): (l: char)
    ensures 'A' <= c <= 'Z' ==> l as int == c as int + 32
    ensures !('A' <= c <= 'Z') ==> l == c
  {
    if 'A' <= c <= 'Z' then (c as int + 32) as char else c
  }

  /** Two spellings of one header field. */
  predicate SameName(a: string, b: string)
  {
    Fold(a) == Fold(b)
  }

  /** No two keys of `m` spell the same field. */
  ghost predicate OneSpellingEach(m: map<string, string>)
  {
    forall a, b :: a in m && b in m && SameName(a, b) ==> a == b
  }

  /**
   * The header fields a `URLRequest` holds. Foundation keeps them in a dictionary whose
   * keys compare without regard to case, so each field has one spelling.
   */
  type HeaderStore = m: map<string, string> | OneSpellingEach(m) witness map[]

  /** A `URLRequest`, with policies as raw values. */
  datatype URLRequest = URLRequest(
    url: Option<Url>,
    cachePolicy: nat,
    timeoutInterval: Seconds,
    mainDocumentURL: Option<Url>,
    networkServiceType: nat,
    allowsCellularAccess: bool,
    httpMethod: Option<string>,
    headerFields: Option<HeaderStore>,
    httpBody: Option<Data>,
    httpBodyStream: Option<Stream>,
    httpShouldHandleCookies: bool,
    httpShouldUsePipelining: bool)

  const ContentLengthField: string := "Content-Length"
  const ContentTypeField: string := "Content-Type"
  const AcceptField: string := "Accept"
  const AcceptEncodingField: string := "Accept-Encoding"
  const CacheControlField: string := "Cache-Control"
  const AuthorizationField: string := "Authorization"

  /** The raw values of `URLRequest.CachePolicy`. */
  const FoundationCachePolicies: set<nat> := {0, 1, 2, 3, 4, 5}

  /** Whether some key of `m` spells `field`. */
  predicate Spelled(m: map<string, string>, field: string)
  {
    exists k :: k in m && SameName(k, field)
  }

  /** The store's entry for `field`, under whichever spelling it holds. */
  function Lookup(h: HeaderStore, field: string): (v: Option<string>)
    ensures v.Some? <==> Spelled(h, field)
    ensures forall k :: k in h && SameName(k, field) ==> v == Some(h[k])
  {
    if Spelled(h, field) then var k :| k in h && SameName(k, field); Some(h[k]) else None
  }

  /** `value(forHTTPHeaderField:)`: the field is looked up without regard to case. */
  function Value(u: URLRequest, field: string): (v: Option<string>)
    ensures v.Some? <==> u.headerFields.Some? && Spelled(u.headerFields.value, field)
    ensures forall k :: u.headerFields.Some? && k in u.headerFields.value && SameName(k, field)
                        ==> v == Some(u.headerFields.value[k])
  {
    if u.headerFields.Some? then Lookup(u.headerFields.value, field) else None
  }

  /** The store without any spelling of `field`. */
  function Without(h: HeaderStore, field: string): (w: HeaderStore)
    ensures forall k :: k in w <==> k in h && !SameName(k, field)
    ensures forall k :: k in w ==> w[k] == h[k]
  {
    map k | k in h && !SameName(k, field) :: h[k]
  }

  /**
   * `setValue(_:forHTTPHeaderField:)`: every spelling of the field is replaced by the
   * value, or removed when the value is `nil`.
   */
  function SetValue(u: URLRequest, value: Option<string>, field: string): (w: URLRequest)
    ensures Value(w, field) == value
    ensures w == u.(headerFields := w.headerFields)
  {
    var kept := Without(u.headerFields.GetOr(map[]), field);
    if value.Some? then
      var h := kept[field := value.value];
      assert field in h && SameName(field, field);
      u.(headerFields := Some(h))
    else if u.headerFields.Some? then u.(headerFields := Some(kept))
    else u
  }

  /**
   * What a lookup of `field` in a `URLRequest` built from header map `m` may give: nothing
   * when `m` holds no spelling of it, else the value of one of its spellings in `m`.
   */
  ghost predicate HeldBy(v: Option<string>, m: Option<map<string, string>>, field: string)
  {
    && (v.None? <==> m.None? || !Spelled(m.value, field))
    && (v.Some? ==> exists k :: k in m.value && SameName(k, field) && m.value[k] == v.value)
  }

  /**
   * The `allHTTPHeaderFields` setter: Foundation stores the map in its case-insensitive
   * dictionary, keeping one entry for each field. Which spelling survives when the map
   * holds several is Foundation's choice; here it is any one of them.
   */
  method StoreFields(m: map<string, string>) returns (h: HeaderStore)
    ensures forall k :: k in h ==> k in m && h[k] == m[k]
    ensures forall f :: HeldBy(Lookup(h, f), Some(m), f)
  {
    h := map[];
    var rest := m.Keys;
    while rest != {}
      invariant rest <= m.Keys
      invariant forall k :: k in h ==> k in m && h[k] == m[k]
      invariant forall k :: k in m && k !in rest ==> Spelled(h, k)
      decreases rest
    {
      var k :| k in rest;
      if !Spelled(h, k) {
        h := h[k := m[k]];
      }
      rest := rest - {k};
    }
    forall f ensures HeldBy(Lookup(h, f), Some(m), f) {
      if Spelled(m, f) {
        var k :| k in m && SameName(k, f);
        var j :| j in h && SameName(j, k);
        assert SameName(j, f);
      }
    }
  }

  /** `"a, b, c"`: the raw values joined as the getter writes them. */
  function ListText<A>(xs: seq<A>, raw: A -> string): string
  {
    Join(Map(xs, raw), ", ")
  }

  /** `value.components(separatedBy: ", ").compactMap(parse)` */
  function ListOf<A>(text: string, parse: string -> Option<A>): seq<A>
  {
    CompactMap(Split(text, ", "), parse)
  }

  // ---------------------------------------------------------------------------
  // URLRequest -> LeafRequest

  /** `init?(_ urlRequest: URLRequest)` */
  function FromURLRequest(vocab: Vocabulary, u: URLRequest): (r: Option<LeafRequest>)
    ensures r.Some? <==> u.url.Some?
    ensures r.Some? ==> r.value.url == u.url.value && r.value.headers == u.headerFields
  {
    if u.url.None? then None
    else
      Some(NewRequest(u.url.value, CachePolicyOf(u.cachePolicy).GetOr(UseProtocolCachePolicy), u.timeoutInterval,
                      u.mainDocumentURL, ServiceTypeOf(u.networkServiceType).GetOr(Default),
                      ParsedContentType(vocab, u, ContentTypeField), ParsedContentLength(u),
                      ParsedContentType(vocab, u, AcceptField), ParsedEncodings(u), ParsedCacheControl(vocab, u),
                      u.allowsCellularAccess, ParsedMethod(u), u.headerFields, u.httpBody, u.httpBodyStream,
                      u.httpShouldHandleCookies, u.httpShouldUsePipelining, ParsedAuthorization(vocab, u)))
  }

  /** `LeafContentType(rawValue:)` of the field, when it is present. */
  function ParsedContentType(vocab: Vocabulary, u: URLRequest, field: string): Option<ContentType>
  {
    if Value(u, field).Some? then vocab.contentTypeOf(Value(u, field).value) else None
  }

  function ParsedEncodings(u: URLRequest): Option<seq<ContentEncoding>>
  {
    if Value(u, AcceptEncodingField).Some? then Some(ListOf(Value(u, AcceptEncodingField).value, ContentEncodingOf)) else None
  }

  function ParsedCacheControl(vocab: Vocabulary, u: URLRequest): Option<seq<CacheControl>>
  {
    if Value(u, CacheControlField).Some? then Some(ListOf(Value(u, CacheControlField).value, vocab.cacheControlOf)) else None
  }

  function ParsedAuthorization(vocab: Vocabulary, u: URLRequest): Authorization
  {
    if Value(u, AuthorizationField).Some? then vocab.authorizationOf(Value(u, AuthorizationField).value) else NoAuthorization
  }

  /** The method, GET unless the request names one Leaf knows. */
  function ParsedMethod(u: URLRequest): Method
  {
    if u.httpMethod.Some? && MethodOf(u.httpMethod.value).Some? then MethodOf(u.httpMethod.value).value else GET
  }

  /** `LeafContentLength(value)`: only a valid unsigned 64-bit integer counts. */
  function ParsedContentLength(u: URLRequest): Option<UInt64>
  {
    if Value(u, ContentLengthField).Some? && ParseUInt64(Value(u, ContentLengthField).value).Some?
    then Some(ParseUInt64(Value(u, ContentLengthField).value).value as UInt64) else None
  }

  // ---------------------------------------------------------------------------
  // LeafRequest -> URLRequest

  /**
   * What the getter promises of the request it returns: the plain properties copied, the
   * body preferred to the stream, and each header field either written from its dedicated
   * property or, for Content-Length and Authorization when those are unset, held over from
   * the header map; every other header field is held over from the header map.
   */
  ghost predicate Serialises(vocab: Vocabulary, r: LeafRequest, u: URLRequest)
  {
    PropertiesCopied(r, u) && DedicatedWritten(vocab, r, u) && OthersKept(r, u)
  }

  /** The plain properties, and the body or else the stream. */
  predicate PropertiesCopied(r: LeafRequest, u: URLRequest)
  {
    && u.url == Some(r.url)
    && u.cachePolicy == r.cache.RawValue()
    && u.timeoutInterval == r.timeout
    && u.mainDocumentURL == r.mainDocumentURL
    && u.networkServiceType == r.serviceType.RawValue()
    && u.allowsCellularAccess == r.allowsCellularAccess
    && u.httpMethod == Some(r.httpMethod.RawValue())
    && u.httpBody == r.body
    && u.httpBodyStream == (if r.body.Some? then None else r.bodyStream)
    && u.httpShouldHandleCookies == r.handleCookies
    && u.httpShouldUsePipelining == r.usePipelining
  }

  function ContentTypeText(vocab: Vocabulary, r: LeafRequest): Option<string>
  {
    if r.contentType.Some? then Some(vocab.contentTypeRaw(r.contentType.value)) else None
  }

  function AcceptText(vocab: Vocabulary, r: LeafRequest): Option<string>
  {
    if r.accept.Some? then Some(vocab.contentTypeRaw(r.accept.value)) else None
  }

  function AcceptEncodingText(r: LeafRequest): Option<string>
  {
    if r.acceptEncoding.Some? then Some(ListText(r.acceptEncoding.value, (e: ContentEncoding) => e.RawValue())) else None
  }

  function CacheControlText(vocab: Vocabulary, r: LeafRequest): Option<string>
  {
    if r.cacheControl.Some? then Some(ListText(r.cacheControl.value, vocab.cacheControlRaw)) else None
  }

  /** The six dedicated header fields, each looked up under its own spelling. */
  ghost predicate DedicatedWritten(vocab: Vocabulary, r: LeafRequest, u: URLRequest)
  {
    && Value(u, ContentTypeField) == ContentTypeText(vocab, r)
    && Value(u, AcceptField) == AcceptText(vocab, r)
    && Value(u, AcceptEncodingField) == AcceptEncodingText(r)
    && Value(u, CacheControlField) == CacheControlText(vocab, r)
    && (if r.contentLength.Some? then Value(u, ContentLengthField) == Some(NatToString(r.contentLength.value))
        else HeldBy(Value(u, ContentLengthField), r.headers, ContentLengthField))
    && (if r.authorization != NoAuthorization
        then Value(u, AuthorizationField) == Some(vocab.authorizationRaw(r.authorization))
        else HeldBy(Value(u, AuthorizationField), r.headers, AuthorizationField))
  }

  /** Every field that no spelling of a dedicated name denotes is held over from the header map. */
  ghost predicate OthersKept(r: LeafRequest, u: URLRequest)
  {
    forall f :: Fold(f) !in DedicatedNames ==> HeldBy(Value(u, f), r.headers, f)
  }

  /** The six dedicated fields, as Foundation compares their names. */
  const DedicatedNames: set<string> :=
    {Fold(ContentTypeField), Fold(ContentLengthField), Fold(AcceptField), Fold(AcceptEncodingField),
     Fold(CacheControlField), Fold(AuthorizationField)}

  /** Whether the request's header map holds `field` under any spelling. */
  predicate Carries(r: LeafRequest, field: string)
  {
    r.headers.Some? && Spelled(r.headers.value, field)
  }

  /** The `urlRequest` getter: a fresh `URLRequest`, then one assignment or `setValue` after another. */
  method ToURLRequest(vocab: Vocabulary, r: LeafRequest) returns (u: URLRequest)
    ensures Serialises(vocab, r, u)
  {
    u := URLRequest(Some(r.url), r.cache.RawValue(), r.timeout, None, 0, true, Some("GET"), None, None, None, true, true);
    u := u.(mainDocumentURL := r.mainDocumentURL);
    u := u.(networkServiceType := r.serviceType.RawValue());
    u := u.(allowsCellularAccess := r.allowsCellularAccess);
    u := u.(httpMethod := Some(r.httpMethod.RawValue()));
    u := SetHeaderFields(vocab, r, u);
    ghost var written := u;
    if r.body.Some? {
      u := u.(httpBody := r.body);
    } else if r.bodyStream.Some? {
      u := u.(httpBodyStream := r.bodyStream);
    }
    u := u.(httpShouldHandleCookies := r.handleCookies);
    u := u.(httpShouldUsePipelining := r.usePipelining);
    SameHeaders(vocab, r, written, u);
  }

  /** `allHTTPHeaderFields = headers`, then the `setValue` calls. */
  method SetHeaderFields(vocab: Vocabulary, r: LeafRequest, u0: URLRequest) returns (u: URLRequest)
    ensures u == u0.(headerFields := u.headerFields)
    ensures DedicatedWritten(vocab, r, u) && OthersKept(r, u)
  {
    if r.headers.Some? {
      var h := StoreFields(r.headers.value);
      u := u0.(headerFields := Some(h));
    } else {
      u := u0.(headerFields := None);
    }
    u := WriteHeaders(vocab, r, u);
  }

  /** The header fields alone decide what `DedicatedWritten` and `OthersKept` say. */
  lemma SameHeaders(vocab: Vocabulary, r: LeafRequest, u: URLRequest, w: URLRequest)
    requires u.headerFields == w.headerFields
    requires DedicatedWritten(vocab, r, u) && OthersKept(r, u)
    ensures DedicatedWritten(vocab, r, w) && OthersKept(r, w)
  {
    assert forall f :: Value(u, f) == Value(w, f);
  }

  /** The getter's `setValue` calls, on a request that holds the stored header map. */
  method WriteHeaders(vocab: Vocabulary, r: LeafRequest, u0: URLRequest) returns (u: URLRequest)
    requires forall f :: HeldBy(Value(u0, f), r.headers, f)
    ensures u == WrittenHeaders(vocab, r, u0)
    ensures u == u0.(headerFields := u.headerFields)
    ensures DedicatedWritten(vocab, r, u) && OthersKept(r, u)
  {
    u := SetValue(u0, ContentTypeText(vocab, r), ContentTypeField);
    if r.contentLength.Some? {
      u := SetValue(u, Some(NatToString(r.contentLength.value)), ContentLengthField);
    }
    u := SetValue(u, AcceptText(vocab, r), AcceptField);
    u := SetValue(u, AcceptEncodingText(r), AcceptEncodingField);
    u := SetValue(u, CacheControlText(vocab, r), CacheControlField);
    if r.authorization != NoAuthorization {
      u := SetValue(u, Some(vocab.authorizationRaw(r.authorization)), AuthorizationField);
    }
    WrittenHeadersSerialise(vocab, r, u0);
  }

  /** The request after the getter's six `setValue` calls, Content-Length and Authorization only when set. */
  function WrittenHeaders(vocab: Vocabulary, r: LeafRequest, u0: URLRequest): (u: URLRequest)
    ensures u == u0.(headerFields := u.headerFields)
  {
    var u3 := FirstWrites(vocab, r, u0);
    var u4 := SetValue(u3, AcceptEncodingText(r), AcceptEncodingField);
    var u5 := SetValue(u4, CacheControlText(vocab, r), CacheControlField);
    if r.authorization != NoAuthorization then SetValue(u5, Some(vocab.authorizationRaw(r.authorization)), AuthorizationField)
    else u5
  }

  /** The first three calls: Content-Type, Content-Length when it is set, and Accept. */
  function FirstWrites(vocab: Vocabulary, r: LeafRequest, u0: URLRequest): (u: URLRequest)
    ensures u == u0.(headerFields := u.headerFields)
  {
    var u1 := SetValue(u0, ContentTypeText(vocab, r), ContentTypeField);
    var u2 := if r.contentLength.Some? then SetValue(u1, Some(NatToString(r.contentLength.value)), ContentLengthField) else u1;
    SetValue(u2, AcceptText(vocab, r), AcceptField)
  }

  /**
   * What the getter writes into any spelling of field `f`: `Some` of the value it passes to
   * `setValue`, or `None` when it leaves the field alone (every field that is not dedicated,
   * and an unset Content-Length or Authorization).
   */
  function Expected(vocab: Vocabulary, r: LeafRequest, f: string): Option<Option<string>>
  {
    if SameName(f, ContentTypeField) then Some(ContentTypeText(vocab, r))
    else if SameName(f, ContentLengthField) then
      (if r.contentLength.Some? then Some(Some(NatToString(r.contentLength.value))) else None)
    else if SameName(f, AcceptField) then Some(AcceptText(vocab, r))
    else if SameName(f, AcceptEncodingField) then Some(AcceptEncodingText(r))
    else if SameName(f, CacheControlField) then Some(CacheControlText(vocab, r))
    else if SameName(f, AuthorizationField) then
      (if r.authorization != NoAuthorization then Some(Some(vocab.authorizationRaw(r.authorization))) else None)
    else None
  }

  /** After the six calls, a field reads what the getter wrote there, or else what it read before. */
  lemma ValueWritten(vocab: Vocabulary, r: LeafRequest, u0: URLRequest, f: string)
    ensures Value(WrittenHeaders(vocab, r, u0), f)
            == if Expected(vocab, r, f).Some? then Expected(vocab, r, f).value else Value(u0, f)
  {
    FieldNamesDistinct();
    var u3 := FirstWrites(vocab, r, u0);
    FirstWritesValue(vocab, r, u0, f);
    var u4 := SetValue(u3, AcceptEncodingText(r), AcceptEncodingField);
    SetValueKeeps(u3, AcceptEncodingText(r), AcceptEncodingField, f);
    var u5 := SetValue(u4, CacheControlText(vocab, r), CacheControlField);
    SetValueKeeps(u4, CacheControlText(vocab, r), CacheControlField, f);
    if r.authorization != NoAuthorization {
      SetValueKeeps(u5, Some(vocab.authorizationRaw(r.authorization)), AuthorizationField, f);
    }
  }

  /** After the first three calls, Content-Type, a set Content-Length and Accept read what was written. */
  lemma FirstWritesValue(vocab: Vocabulary, r: LeafRequest, u0: URLRequest, f: string)
    ensures Value(FirstWrites(vocab, r, u0), f)
            == if SameName(f, ContentTypeField) then ContentTypeText(vocab, r)
               else if SameName(f, ContentLengthField) && r.contentLength.Some? then Some(NatToString(r.contentLength.value))
               else if SameName(f, AcceptField) then AcceptText(vocab, r)
               else Value(u0, f)
  {
    FieldNamesDistinct();
    var u1 := SetValue(u0, ContentTypeText(vocab, r), ContentTypeField);
    SetValueKeeps(u0, ContentTypeText(vocab, r), ContentTypeField, f);
    var u2 := if r.contentLength.Some? then SetValue(u1, Some(NatToString(r.contentLength.value)), ContentLengthField) else u1;
    if r.contentLength.Some? {
      SetValueKeeps(u1, Some(NatToString(r.contentLength.value)), ContentLengthField, f);
    }
    SetValueKeeps(u2, AcceptText(vocab, r), AcceptField, f);
  }

  /** From a request that holds the header map, the six calls give what the getter promises. */
  lemma WrittenHeadersSerialise(vocab: Vocabulary, r: LeafRequest, u0: URLRequest)
    requires forall f :: HeldBy(Value(u0, f), r.headers, f)
    ensures DedicatedWritten(vocab, r, WrittenHeaders(vocab, r, u0)) && OthersKept(r, WrittenHeaders(vocab, r, u0))
  {
    var u := WrittenHeaders(vocab, r, u0);
    ExpectedValues(vocab, r);
    ValueWritten(vocab, r, u0, ContentTypeField);
    ValueWritten(vocab, r, u0, ContentLengthField);
    ValueWritten(vocab, r, u0, AcceptField);
    ValueWritten(vocab, r, u0, AcceptEncodingField);
    ValueWritten(vocab, r, u0, CacheControlField);
    ValueWritten(vocab, r, u0, AuthorizationField);
    forall f | Fold(f) !in DedicatedNames ensures HeldBy(Value(u, f), r.headers, f) {
      NotDedicated(vocab, r, f);
      ValueWritten(vocab, r, u0, f);
    }
  }

  /** A field no dedicated name spells is one the getter leaves alone. */
  lemma NotDedicated(vocab: Vocabulary, r: LeafRequest, f: string)
    requires Fold(f) !in DedicatedNames
    ensures Expected(vocab, r, f).None?
  {
  }

  /** `Expected` at each of the six dedicated fields. */
  lemma ExpectedValues(vocab: Vocabulary, r: LeafRequest)
    ensures Expected(vocab, r, ContentTypeField) == Some(ContentTypeText(vocab, r))
    ensures Expected(vocab, r, ContentLengthField)
            == if r.contentLength.Some? then Some(Some(NatToString(r.contentLength.value))) else None
    ensures Expected(vocab, r, AcceptField) == Some(AcceptText(vocab, r))
    ensures Expected(vocab, r, AcceptEncodingField) == Some(AcceptEncodingText(r))
    ensures Expected(vocab, r, CacheControlField) == Some(CacheControlText(vocab, r))
    ensures Expected(vocab, r, AuthorizationField)
            == if r.authorization != NoAuthorization then Some(Some(vocab.authorizationRaw(r.authorization))) else None
  {
    FieldNamesDistinct();
  }

  /**
   * `setValue` sets every spelling of its field to the value and leaves every other
   * field as it was.
   */
  lemma SetValueKeeps(u: URLRequest, value: Option<string>, field: string, other: string)
    ensures Value(SetValue(u, value, field), other) == if SameName(other, field) then value else Value(u, other)
  {
    var w := SetValue(u, value, field);
    if SameName(other, field) {
      ValueByName(w, other, field);
    } else if w.headerFields.Some? {
      var kept := Without(u.headerFields.GetOr(map[]), field);
      if Spelled(w.headerFields.value, other) {
        var k :| k in w.headerFields.value && SameName(k, other);
        assert k != field && k in kept;
      }
    }
  }

  /** Two spellings of one field look up the same value. */
  lemma ValueByName(u: URLRequest, f: string, g: string)
    requires SameName(f, g)
    ensures Value(u, f) == Value(u, g)
  {
    if u.headerFields.Some? && Spelled(u.headerFields.value, f) {
      var k :| k in u.headerFields.value && SameName(k, f);
      assert SameName(k, g);
    }
  }

  /** `Builder.init?(_ urlRequest:)`: a builder seeded with the parsed request, if there is one. */
  method BuilderFromURLRequest(vocab: Vocabulary, u: URLRequest) returns (b: RequestBuilders.Builder?)
    ensures b == null <==> u.url.None?
    ensures b != null ==> fresh(b) && b.Fields() == RequestBuilders.FieldsOf(FromURLRequest(vocab, u).value)
  {
    var r := FromURLRequest(vocab, u);
    if r.None? {
      return null;
    }
    b := new RequestBuilders.Builder.FromRequest(r.value);
  }

  // ---------------------------------------------------------------------------
  // Lemmas

  /** The six header names differ from each other, in any spelling. */
  lemma FieldNamesDistinct()
    ensures !SameName(ContentLengthField, ContentTypeField) && !SameName(ContentLengthField, AcceptField)
    ensures !SameName(ContentLengthField, AcceptEncodingField) && !SameName(ContentLengthField, CacheControlField)
    ensures !SameName(ContentLengthField, AuthorizationField) && !SameName(ContentTypeField, AcceptField)
    ensures !SameName(ContentTypeField, AcceptEncodingField) && !SameName(ContentTypeField, CacheControlField)
    ensures !SameName(ContentTypeField, AuthorizationField) && !SameName(AcceptField, AcceptEncodingField)
    ensures !SameName(AcceptField, CacheControlField) && !SameName(AcceptField, AuthorizationField)
    ensures !SameName(AcceptEncodingField, CacheControlField) && !SameName(AcceptEncodingField, AuthorizationField)
    ensures !SameName(CacheControlField, AuthorizationField)
  {
    assert |ContentLengthField| == 14 && |ContentTypeField| == 12 && |AcceptField| == 6;
    assert |AcceptEncodingField| == 15 && |CacheControlField| == 13 && |AuthorizationField| == 13;
    assert Fold(CacheControlField)[0] == 'c' && Fold(AuthorizationField)[0] == 'a';
  }

  /** A list written with `", "` and read back with the same parser is the same list. */
  lemma ListRoundTrip<A>(xs: seq<A>, raw: A -> string, parse: string -> Option<A>)
    requires forall x :: parse(raw(x)) == Some(x)
    requires forall x, k :: 0 <= k < |raw(x)| ==> raw(x)[k] != ','
    requires parse("").None?
    ensures ListOf(ListText(xs, raw), parse) == xs
  {
    if |xs| == 0 {
      assert Split("", ", ") == [""];
    } else {
      var parts := Map(xs, raw);
      forall i, k | 0 <= i < |parts| && 0 <= k < |parts[i]| ensures parts[i][k] != ", "[0] {
        assert parts[i] == raw(xs[i]);
      }
      SplitJoin(parts, ", ");
      CompactMapInverse(xs, raw, parse);
    }
  }

  /** The content encodings' raw values contain no comma. */
  lemma EncodingListRoundTrip(xs: seq<ContentEncoding>)
    ensures ListOf(ListText(xs, (e: ContentEncoding) => e.RawValue()), ContentEncodingOf) == xs
  {
    forall e: ContentEncoding ensures ContentEncodingOf(e.RawValue()) == Some(e) {
      ContentEncodingRawValueInverse(e);
    }
    ListRoundTrip(xs, (e: ContentEncoding) => e.RawValue(), ContentEncodingOf);
  }

  /**
   * Serialising then parsing gives the request back, except that its header map is now
   * the one the `URLRequest` carries, provided the vocabulary is coherent, the request does
   * not hold both a body and a stream, and its header map holds no spelling of a
   * Content-Length or Authorization field its dedicated properties leave unset.
   */
  lemma URLRequestRoundTrip(vocab: Vocabulary, r: LeafRequest, u: URLRequest)
    requires vocab.Coherent() && Serialises(vocab, r, u)
    requires r.body.None? || r.bodyStream.None?
    requires r.contentLength.None? ==> !Carries(r, ContentLengthField)
    requires r.authorization == NoAuthorization ==> !Carries(r, AuthorizationField)
    ensures FromURLRequest(vocab, u) == Some(r.(headers := u.headerFields))
  {
    CachePolicyRawValueInverse(r.cache);
    ServiceTypeRawValueInverse(r.serviceType);
    MethodRawValueInverse(r.httpMethod);
    ContentTypesRead(vocab, r, u);
    ContentLengthRead(vocab, r, u);
    ListsRead(vocab, r, u);
    AuthorizationRead(vocab, r, u);
  }

  lemma ContentTypesRead(vocab: Vocabulary, r: LeafRequest, u: URLRequest)
    requires vocab.Coherent() && DedicatedWritten(vocab, r, u)
    ensures ParsedContentType(vocab, u, ContentTypeField) == r.contentType
    ensures ParsedContentType(vocab, u, AcceptField) == r.accept
  {
  }

  lemma ContentLengthRead(vocab: Vocabulary, r: LeafRequest, u: URLRequest)
    requires DedicatedWritten(vocab, r, u)
    requires r.contentLength.None? ==> !Carries(r, ContentLengthField)
    ensures ParsedContentLength(u) == r.contentLength
  {
    if r.contentLength.Some? {
      UInt64RoundTrip(r.contentLength.value);
    }
  }

  lemma ListsRead(vocab: Vocabulary, r: LeafRequest, u: URLRequest)
    requires vocab.Coherent() && DedicatedWritten(vocab, r, u)
    ensures ParsedEncodings(u) == r.acceptEncoding
    ensures ParsedCacheControl(vocab, u) == r.cacheControl
  {
    if r.acceptEncoding.Some? {
      EncodingListRoundTrip(r.acceptEncoding.value);
    }
    if r.cacheControl.Some? {
      ListRoundTrip(r.cacheControl.value, vocab.cacheControlRaw, vocab.cacheControlOf);
    }
  }

  lemma AuthorizationRead(vocab: Vocabulary, r: LeafRequest, u: URLRequest)
    requires vocab.Coherent() && DedicatedWritten(vocab, r, u)
    requires r.authorization == NoAuthorization ==> !Carries(r, AuthorizationField)
    ensures ParsedAuthorization(vocab, u) == r.authorization
  {
  }

  /** A missing or unknown method reads as GET. */
  lemma UnknownMethodIsGet(vocab: Vocabulary, u: URLRequest)
    requires u.url.Some?
    requires u.httpMethod.None? || MethodOf(u.httpMethod.value).None?
    ensures FromURLRequest(vocab, u).value.httpMethod == GET
  {
  }

  /** A Content-Length header that is no unsigned 64-bit integer reads as no length. */
  lemma BadContentLengthIgnored(vocab: Vocabulary, u: URLRequest)
    requires u.url.Some?
    requires Value(u, ContentLengthField).None? || ParseUInt64(Value(u, ContentLengthField).value).None?
    ensures FromURLRequest(vocab, u).value.contentLength.None?
  {
  }

  /** Without an Authorization header the authorization is `.none`. */
  lemma MissingAuthorizationIsNone(vocab: Vocabulary, u: URLRequest)
    requires u.url.Some? && Value(u, AuthorizationField).None?
    ensures FromURLRequest(vocab, u).value.authorization == NoAuthorization
  {
  }

  /** Foundation reads a header field under any spelling: a lower-case `content-length` is the length. */
  lemma LowerCaseLengthRead(vocab: Vocabulary, u: URLRequest)
    requires u.url.Some? && u.headerFields == Some(map["content-length" := "5"])
    ensures FromURLRequest(vocab, u).value.contentLength == Some(5)
  {
    assert SameName("content-length", ContentLengthField) by {
      assert Fold("content-length") == Fold(ContentLengthField);
    }
    assert "content-length" in u.headerFields.value;
    assert Value(u, ContentLengthField) == Some("5");
    assert NatToString(5) == "5";
    UInt64RoundTrip(5);
    assert ParsedContentLength(u) == Some(5);
  }

  /**
   * When the header map holds one spelling of a field, a value held over from it is that
   * spelling's value.
   */
  lemma HeldByOneSpelling(v: Option<string>, m: map<string, string>, k: string, field: string)
    requires OneSpellingEach(m) && k in m && SameName(k, field)
    requires HeldBy(v, Some(m), field)
    ensures v == Some(m[k])
  {
    var j :| j in m && SameName(j, field) && m[j] == v.value;
    assert SameName(j, k);
  }

  /** A cache policy Leaf has no case for (Foundation's 4 and 5) reads as `.useProtocolCachePolicy`. */
  lemma ForeignCachePolicyIsDefault(vocab: Vocabulary, u: URLRequest)
    requires u.url.Some? && u.cachePolicy in FoundationCachePolicies && u.cachePolicy > 3
    ensures FromURLRequest(vocab, u).value.cache == UseProtocolCachePolicy
  {
  }
}
