/**
 * The small enumerations and opaque values that Leaf's request, response and task
 * records are made of. Types whose definition is not part of this model
 * (LeafContentType, LeafCacheControl, LeafAuthorization) keep only the cases the
 * model's code mentions; their textual forms are supplied by a `Vocabulary`.
 */
module LeafTypes {
  import opened Wrappers

  type Byte = x: int | 0 <= x < 256

  /** `LeafRequest.LeafContentLength`, a `UInt64`. */
  type UInt64 = x: int | 0 <= x < 0x1_0000_0000_0000_0000

  /** Swift's `Int` on a 64-bit platform. */
  type Int64 = x: int | -0x8000_0000_0000_0000 <= x < 0x8000_0000_0000_0000

  /** `TimeInterval` and `Float` values are only stored and copied; they are kept as exact reals. */
  type Seconds = real

  /**
   * A `URL`, decomposed the way `URLComponents` sees the parts this model touches:
   * everything before the query, the percent-encoded query, and the fragment.
   */
  datatype Url = Url(head: string, query: Option<string>, fragment: Option<string>)
  {
    /** `url.absoluteString` */
    function AbsoluteString(): string {
      head
      + (if query.Some? then "?" + query.value else "")
      + (if fragment.Some? then "#" + fragment.value else "")
    }
  }

  /** An `InputStream`: only its identity matters here. */
  datatype Stream = Stream(id: nat)

  /** A value of type `Any` (a response object, an error's partial object): opaque. */
  datatype Payload = Payload(id: nat)

  /** A `URLResponse` kept by reference: opaque. */
  datatype NativeResponse = NativeResponse(id: nat)

  /** `LeafRequest.LeafCachePolicy`, with its raw values 0 to 3. */
  datatype CachePolicy =
    | UseProtocolCachePolicy
    | ReloadIgnoringLocalCacheData
    | ReturnCacheDataElseLoad
    | ReturnCacheDataDontLoad
  {
    function RawValue(): nat {
      match this
      case UseProtocolCachePolicy => 0
      case ReloadIgnoringLocalCacheData => 1
      case ReturnCacheDataElseLoad => 2
      case ReturnCacheDataDontLoad => 3
    }
  }

  /** `LeafCachePolicy(rawValue:)` */
  function CachePolicyOf(raw: nat): (r: Option<CachePolicy>)
    ensures r.Some? ==> r.value.RawValue() == raw
    ensures raw <= 3 ==> r.Some?
  {
    if raw == 0 then Some(UseProtocolCachePolicy)
    else if raw == 1 then Some(ReloadIgnoringLocalCacheData)
    else if raw == 2 then Some(ReturnCacheDataElseLoad)
    else if raw == 3 then Some(ReturnCacheDataDontLoad)
    else None
  }

  /** `LeafRequest.LeafServiceType`: raw values 0 to 4, and 11 for call signalling. */
  datatype ServiceType = Default | Voip | Video | Background | Voice | CallSignaling
  {
    function RawValue(): nat {
      match this
      case Default => 0
      case Voip => 1
      case Video => 2
      case Background => 3
      case Voice => 4
      case CallSignaling => 11
    }
  }

  /** `LeafServiceType(rawValue:)` */
  function ServiceTypeOf(raw: nat): (r: Option<ServiceType>)
    ensures r.Some? ==> r.value.RawValue() == raw
  {
    if raw == 0 then Some(Default)
    else if raw == 1 then Some(Voip)
    else if raw == 2 then Some(Video)
    else if raw == 3 then Some(Background)
    else if raw == 4 then Some(Voice)
    else if raw == 11 then Some(CallSignaling)
    else None
  }

  /** `LeafRequest.LeafMethod`: the raw value of each case is its name. */
  datatype Method =
    | GET | POST | PUT | DELETE | PATCH | UPDATE | HEAD | TRACE | OPTIONS | CONNECT
    | SEARCH | COPY | MERGE | LABEL | LOCK | UNLOCK | MOVE | MKCOL | PROPFIND | PROPPATCH
  {
    function RawValue(): string {
      match this
      case GET => "GET"
      case POST => "POST"
      case PUT => "PUT"
      case DELETE => "DELETE"
      case PATCH => "PATCH"
      case UPDATE => "UPDATE"
      case HEAD => "HEAD"
      case TRACE => "TRACE"
      case OPTIONS => "OPTIONS"
      case CONNECT => "CONNECT"
      case SEARCH => "SEARCH"
      case COPY => "COPY"
      case MERGE => "MERGE"
      case LABEL => "LABEL"
      case LOCK => "LOCK"
      case UNLOCK => "UNLOCK"
      case MOVE => "MOVE"
      case MKCOL => "MKCOL"
      case PROPFIND => "PROPFIND"
      case PROPPATCH => "PROPPATCH"
    }
  }

  /** `LeafMethod(rawValue:)` */
  function MethodOf(raw: string): (r: Option<Method>)
    ensures r.Some? ==> r.value.RawValue() == raw
  {
    if raw == "GET" then Some(GET)
    else if raw == "POST" then Some(POST)
    else if raw == "PUT" then Some(PUT)
    else if raw == "DELETE" then Some(DELETE)
    else if raw == "PATCH" then Some(PATCH)
    else if raw == "UPDATE" then Some(UPDATE)
    else if raw == "HEAD" then Some(HEAD)
    else if raw == "TRACE" then Some(TRACE)
    else if raw == "OPTIONS" then Some(OPTIONS)
    else if raw == "CONNECT" then Some(CONNECT)
    else if raw == "SEARCH" then Some(SEARCH)
    else if raw == "COPY" then Some(COPY)
    else if raw == "MERGE" then Some(MERGE)
    else if raw == "LABEL" then Some(LABEL)
    else if raw == "LOCK" then Some(LOCK)
    else if raw == "UNLOCK" then Some(UNLOCK)
    else if raw == "MOVE" then Some(MOVE)
    else if raw == "MKCOL" then Some(MKCOL)
    else if raw == "PROPFIND" then Some(PROPFIND)
    else if raw == "PROPPATCH" then Some(PROPPATCH)
    else None
  }

  /** `LeafRequest.LeafContentEncoding`: the raw value of each case is its name. */
  datatype ContentEncoding = Gzip | Compress | Deflate | Identity | Br
  {
    function RawValue(): string {
      match this
      case Gzip => "gzip"
      case Compress => "compress"
      case Deflate => "deflate"
      case Identity => "identity"
      case Br => "br"
    }
  }

  /** `LeafContentEncoding(rawValue:)` */
  function ContentEncodingOf(raw: string): (r: Option<ContentEncoding>)
    ensures r.Some? ==> r.value.RawValue() == raw
  {
    if raw == "gzip" then Some(Gzip)
    else if raw == "compress" then Some(Compress)
    else if raw == "deflate" then Some(Deflate)
    else if raw == "identity" then Some(Identity)
    else if raw == "br" then Some(Br)
    else None
  }

  lemma MethodRawValueInverse(m: Method)
    ensures MethodOf(m.RawValue()) == Some(m)
  {
  }

  lemma ContentEncodingRawValueInverse(e: ContentEncoding)
    ensures ContentEncodingOf(e.RawValue()) == Some(e)
  {
  }

  lemma CachePolicyRawValueInverse(c: CachePolicy)
    ensures CachePolicyOf(c.RawValue()) == Some(c)
  {
  }

  lemma ServiceTypeRawValueInverse(t: ServiceType)
    ensures ServiceTypeOf(t.RawValue()) == Some(t)
  {
  }

  /** `LeafContentType`: the cases the builder names, and a custom media type. */
  datatype ContentType = Bin | FormURL | Txt | Json | Plist | Custom(mediaType: string)

  /** `LeafCacheControl`: a cache directive, opaque apart from its identity. */
  datatype CacheControl = CacheControl(directive: nat)

  /** `LeafAuthorization` */
  datatype Authorization =
    | NoAuthorization
    | Basic(user: string, password: string)
    | Bearer(token: string)
    | CustomAuthorization(value: string)

  /**
   * The textual forms (`rawValue` and `init(rawValue:)`) of the types whose definition
   * is not part of this model.
   */
  datatype Vocabulary = Vocabulary(
    contentTypeRaw: ContentType -> string,
    contentTypeOf: string -> Option<ContentType>,
    cacheControlRaw: CacheControl -> string,
    cacheControlOf: string -> Option<CacheControl>,
    authorizationRaw: Authorization -> string,
    authorizationOf: string -> Authorization)
  {
    /**
     * What a well-behaved vocabulary satisfies: each parser inverts its printer (for
     * every authorization other than `.none`), and a cache directive's text is free of
     * commas while the empty text is no directive (so a list of them can be joined with
     * ", " and split again).
     */
    ghost predicate Coherent() {
      && (forall c :: contentTypeOf(contentTypeRaw(c)) == Some(c))
      && (forall d :: cacheControlOf(cacheControlRaw(d)) == Some(d))
      && (forall a :: a != NoAuthorization ==> authorizationOf(authorizationRaw(a)) == a)
      && (forall d, k :: 0 <= k < |cacheControlRaw(d)| ==> cacheControlRaw(d)[k] != ',')
      && cacheControlOf("").None?
    }
  }
}
