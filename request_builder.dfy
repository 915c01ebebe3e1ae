/**
 * `LeafRequest.Builder`: a mutable staging object for a request. Every field starts
 * `nil`; chained setters overwrite them; the body setters fill the content type, the
 * method and the content length only where they are still unset (first set wins);
 * `build()` supplies the remaining defaults.
 */
module RequestBuilders {
  import opened Wrappers
  import opened Text
  import opened LeafTypes
  import opened Errors
  import opened Requests
  import Query

  /** Everything a `Builder` holds, as a value; an unset field is `None`. */
  datatype RequestFields = RequestFields(
    url: Url,
    cache: Option<CachePolicy>,
    timeout: Option<Seconds>,
    mainDocumentURL: Option<Url>,
    serviceType: Option<ServiceType>,
    contentType: Option<ContentType>,
    contentLength: Option<UInt64>,
    accept: Option<ContentType>,
    acceptEncoding: Option<seq<ContentEncoding>>,
    cacheControl: Option<seq<CacheControl>>,
    allowsCellularAccess: Option<bool>,
    httpMethod: Option<Method>,
    headers: Option<map<string, string>>,
    body: Option<Data>,
    bodyStream: Option<Stream>,
    handleCookies: Option<bool>,
    usePipelining: Option<bool>,
    authorization: Option<Authorization>)

  /** What `init(_ url:)` holds: the address and nothing else. */
  function EmptyFields(url: Url): RequestFields
  {
    RequestFields(url, None, None, None, None, None, None, None, None, None, None, None, None, None, None,
                  None, None, None)
  }

  /** What `init(_ leafRequest:)` holds: every field of the request, except that GET is left unset. */
  function FieldsOf(r: LeafRequest): RequestFields
  {
    RequestFields(r.url, Some(r.cache), Some(r.timeout), r.mainDocumentURL, Some(r.serviceType), r.contentType,
                  r.contentLength, r.accept, r.acceptEncoding, r.cacheControl, Some(r.allowsCellularAccess),
                  if r.httpMethod != GET then Some(r.httpMethod) else None,
                  r.headers, r.body, r.bodyStream, Some(r.handleCookies), Some(r.usePipelining),
                  Some(r.authorization))
  }

  /** The fields `init(_ leafRequest:)` produces: each field that has a default is set, and GET is not. */
  predicate Seeded(f: RequestFields)
  {
    && f.cache.Some? && f.timeout.Some? && f.serviceType.Some? && f.allowsCellularAccess.Some?
    && f.handleCookies.Some? && f.usePipelining.Some? && f.authorization.Some? && f.httpMethod != Some(GET)
  }

  /**
   * `LeafRequest.init(_ builder:)`: the staged fields, with the defaults `.useProtocolCachePolicy`,
   * 60 seconds, `.default`, cellular access, GET, cookie handling, pipelining and no authorization.
   */
  function BuildFrom(f: RequestFields): (r: LeafRequest)
    ensures Equal(r, NewRequest(f.url, httpMethod := f.httpMethod.GetOr(GET)))
    ensures Seeded(f) ==> FieldsOf(r) == f
  {
    NewRequest(f.url, f.cache.GetOr(UseProtocolCachePolicy), f.timeout.GetOr(60.0), f.mainDocumentURL,
               f.serviceType.GetOr(Default), f.contentType, f.contentLength, f.accept, f.acceptEncoding,
               f.cacheControl, f.allowsCellularAccess.GetOr(true), f.httpMethod.GetOr(GET), f.headers, f.body,
               f.bodyStream, f.handleCookies.GetOr(true), f.usePipelining.GetOr(true),
               f.authorization.GetOr(NoAuthorization))
  }

  // ---------------------------------------------------------------------------
  // The setters' effect on the staged fields

  /**
   * The defaulting the body setters share: content type `ct`, method POST and content
   * length `length`, each only where the field is still unset.
   */
  function FillDefaults(f: RequestFields, ct: ContentType, length: Option<UInt64>): RequestFields
  {
    f.(contentType := if f.contentType.None? then Some(ct) else f.contentType,
       httpMethod := if f.httpMethod.None? then Some(POST) else f.httpMethod,
       contentLength := if f.contentLength.None? then length else f.contentLength)
  }

  /** `Int64(data.count)` as a content length. */
  function LengthOf(d: Option<Data>): (n: Option<UInt64>)
    ensures n.Some? <==> d.Some?
    ensures d.Some? ==> n.value == |d.value|
  {
    if d.Some? then Some(|d.value|) else None
  }

  /** `setBody`: data clears the stream and fills the binary defaults; `nil` only clears the body. */
  function WithBody(f: RequestFields, body: Option<Data>): RequestFields
  {
    if body.Some? then FillDefaults(f.(bodyStream := None), Bin, LengthOf(body)).(body := body)
    else f.(body := None)
  }

  /** `setBodyStream`: a stream clears the body and fills type and method, never the length. */
  function WithBodyStream(f: RequestFields, stream: Option<Stream>): RequestFields
  {
    if stream.Some? then FillDefaults(f.(body := None), Bin, None).(bodyStream := stream)
    else f.(bodyStream := None)
  }

  /**
   * The encoding setters (form, string, JSON, property list, custom body): the encoded
   * data replaces the body, or clears it when the encoding produced none, and the defaults
   * for `ct` are filled.
   */
  function WithEncodedBody(f: RequestFields, encoded: Option<Data>, ct: ContentType): RequestFields
  {
    FillDefaults(f.(body := encoded), ct, LengthOf(encoded))
  }

  /** `setMultipartFormData`: content type and length are overwritten whatever they were. */
  function WithMultipart(f: RequestFields, data: Data, mediaType: string, length: UInt64): RequestFields
  {
    f.(body := Some(data), contentType := Some(Custom(mediaType)), contentLength := Some(length),
       httpMethod := if f.httpMethod.None? then Some(POST) else f.httpMethod)
  }

  /** `addHeader`: an empty map if there was none, then the subscript assignment (`nil` removes). */
  function WithHeader(f: RequestFields, key: string, value: Option<string>): RequestFields
  {
    var hs := f.headers.GetOr(map[]);
    f.(headers := Some(if value.Some? then hs[key := value.value] else hs - {key}))
  }

  /** `xs` with the first occurrence of `x`, if any, moved to the end (or `x` appended). */
  function MoveToEnd<T(==)>(xs: seq<T>, x: T): seq<T>
  {
    if |xs| == 0 then [x]
    else if xs[0] == x then xs[1..] + [x]
    else [xs[0]] + MoveToEnd(xs[1..], x)
  }

  /** `addAcceptEncoding` / `addCacheControl` on the stored list. */
  function Added<T(==)>(list: Option<seq<T>>, x: Option<T>): Option<seq<T>>
  {
    if x.Some? then Some(MoveToEnd(list.GetOr([]), x.value)) else Some(list.GetOr([]))
  }

  /** The query `setURLParameters` leaves in the address. */
  ghost function ParametersQuery(current: Option<string>, parameters: Option<map<string, Query.Param>>, removeCurrent: bool)
    : Option<string>
  {
    if parameters.Some? && parameters.value != map[] then Some(Query.QueryString(Query.UrlQueryAllowed, parameters.value))
    else if removeCurrent then None
    else current
  }

  /** `setURLParameters`: the address with its percent-encoded query replaced. */
  ghost function WithURLParameters(f: RequestFields, parameters: Option<map<string, Query.Param>>, removeCurrent: bool)
    : RequestFields
  {
    f.(url := f.url.(query := ParametersQuery(f.url.query, parameters, removeCurrent)))
  }

  /** `addURLParameter`: the encoded pair after the existing query and an `&`. */
  ghost function WithURLParameter(f: RequestFields, key: string, value: Option<Query.Param>): RequestFields
  {
    if value.None? then f
    else
      var prefix := if f.url.query.Some? then f.url.query.value + "&" else "";
      f.(url := f.url.(query := Some(prefix + Query.QueryString(Query.UrlQueryAllowed, map[key := value.value]))))
  }

  /** A `LeafMultipartFormData`, whose definition is not part of this model: its encoding, media type and length. */
  datatype MultipartForm = MultipartForm(encoded: Result<Data, AnyError>, contentType: string, contentLength: UInt64)

  // ---------------------------------------------------------------------------
  // The builder

  class Builder {
    var url: Url
    var cache: Option<CachePolicy>
    var timeout: Option<Seconds>
    var mainDocumentURL: Option<Url>
    var serviceType: Option<ServiceType>
    var contentType: Option<ContentType>
    var contentLength: Option<UInt64>
    var accept: Option<ContentType>
    var acceptEncoding: Option<seq<ContentEncoding>>
    var cacheControl: Option<seq<CacheControl>>
    var allowsCellularAccess: Option<bool>
    var httpMethod: Option<Method>
    var headers: Option<map<string, string>>
    var body: Option<Data>
    var bodyStream: Option<Stream>
    var handleCookies: Option<bool>
    var usePipelining: Option<bool>
    var authorization: Option<Authorization>

    /** The staged fields. */
    function Fields(): RequestFields
      reads this
    {
      RequestFields(url, cache, timeout, mainDocumentURL, serviceType, contentType, contentLength, accept,
                    acceptEncoding, cacheControl, allowsCellularAccess, httpMethod, headers, body, bodyStream,
                    handleCookies, usePipelining, authorization)
    }

    /** `init(_ url: URL)` */
    constructor (url: Url)
      ensures Fields() == EmptyFields(url)
    {
      this.url := url;
      cache, timeout, mainDocumentURL, serviceType := None, None, None, None;
      contentType, contentLength, accept, acceptEncoding := None, None, None, None;
      cacheControl, allowsCellularAccess, httpMethod, headers := None, None, None, None;
      body, bodyStream, handleCookies, usePipelining, authorization := None, None, None, None, None;
    }

    /** `init(_ leafRequest: LeafRequest)`, also `leafRequest.builder()` */
    constructor FromRequest(r: LeafRequest)
      ensures Fields() == FieldsOf(r)
    {
      url := r.url;
      cache := Some(r.cache);
      timeout := Some(r.timeout);
      mainDocumentURL := r.mainDocumentURL;
      serviceType := Some(r.serviceType);
      contentType := r.contentType;
      contentLength := r.contentLength;
      accept := r.accept;
      acceptEncoding := r.acceptEncoding;
      cacheControl := r.cacheControl;
      allowsCellularAccess := Some(r.allowsCellularAccess);
      httpMethod := if r.httpMethod != GET then Some(r.httpMethod) else None;
      headers := r.headers;
      body := r.body;
      bodyStream := r.bodyStream;
      handleCookies := Some(r.handleCookies);
      usePipelining := Some(r.usePipelining);
      authorization := Some(r.authorization);
    }

    method SetCache(cache: Option<CachePolicy>)
      modifies this
      ensures Fields() == old(Fields()).(cache := cache)
    {
      this.cache := cache;
    }

    method SetTimeout(timeout: Option<Seconds>)
      modifies this
      ensures Fields() == old(Fields()).(timeout := timeout)
    {
      this.timeout := timeout;
    }

    method SetMainDocumentURL(mainDocumentURL: Option<Url>)
      modifies this
      ensures Fields() == old(Fields()).(mainDocumentURL := mainDocumentURL)
    {
      this.mainDocumentURL := mainDocumentURL;
    }

    method SetServiceType(serviceType: Option<ServiceType>)
      modifies this
      ensures Fields() == old(Fields()).(serviceType := serviceType)
    {
      this.serviceType := serviceType;
    }

    method SetContentType(contentType: Option<ContentType>)
      modifies this
      ensures Fields() == old(Fields()).(contentType := contentType)
    {
      this.contentType := contentType;
    }

    method SetContentLength(contentLength: Option<UInt64>)
      modifies this
      ensures Fields() == old(Fields()).(contentLength := contentLength)
    {
      this.contentLength := contentLength;
    }

    method SetAccept(accept: Option<ContentType>)
      modifies this
      ensures Fields() == old(Fields()).(accept := accept)
    {
      this.accept := accept;
    }

    method SetAcceptEncodings(acceptEncodings: Option<seq<ContentEncoding>>)
      modifies this
      ensures Fields() == old(Fields()).(acceptEncoding := acceptEncodings)
    {
      this.acceptEncoding := acceptEncodings;
    }

    /** `addAcceptEncoding`: the list is created if missing, then the encoding moves to its end. */
    method AddAcceptEncoding(encoding: Option<ContentEncoding>)
      modifies this
      ensures Fields() == old(Fields()).(acceptEncoding := Added(old(acceptEncoding), encoding))
    {
      if acceptEncoding.None? {
        SetAcceptEncodings(Some([]));
      }
      if encoding.Some? && acceptEncoding.Some? {
        var encodings := Remove(acceptEncoding.value, encoding.value);
        encodings := encodings + [encoding.value];
        SetAcceptEncodings(Some(encodings));
      }
    }

    method SetCacheControls(cacheControls: Option<seq<CacheControl>>)
      modifies this
      ensures Fields() == old(Fields()).(cacheControl := cacheControls)
    {
      this.cacheControl := cacheControls;
    }

    /** `addCacheControl`: the same move-to-end as `addAcceptEncoding`. */
    method AddCacheControl(directive: Option<CacheControl>)
      modifies this
      ensures Fields() == old(Fields()).(cacheControl := Added(old(cacheControl), directive))
    {
      if cacheControl.None? {
        SetCacheControls(Some([]));
      }
      if directive.Some? && cacheControl.Some? {
        var directives := Remove(cacheControl.value, directive.value);
        directives := directives + [directive.value];
        SetCacheControls(Some(directives));
      }
    }

    method SetAllowsCellularAccess(allowsCellularAccess: Option<bool>)
      modifies this
      ensures Fields() == old(Fields()).(allowsCellularAccess := allowsCellularAccess)
    {
      this.allowsCellularAccess := allowsCellularAccess;
    }

    method SetMethod(httpMethod: Option<Method>)
      modifies this
      ensures Fields() == old(Fields()).(httpMethod := httpMethod)
    {
      this.httpMethod := httpMethod;
    }

    method SetHeaders(headers: Option<map<string, string>>)
      modifies this
      ensures Fields() == old(Fields()).(headers := headers)
    {
      this.headers := headers;
    }

    method AddHeader(key: string, value: Option<string>)
      modifies this
      ensures Fields() == WithHeader(old(Fields()), key, value)
    {
      if headers.None? {
        SetHeaders(Some(map[]));
      }
      if value.Some? {
        headers := Some(headers.value[key := value.value]);
      } else {
        headers := Some(headers.value - {key});
      }
    }

    /** The three `if ... == nil` defaults every body setter repeats. */
    method FillUnset(ct: ContentType, length: Option<UInt64>)
      modifies this
      ensures Fields() == FillDefaults(old(Fields()), ct, length)
    {
      if contentType.None? {
        SetContentType(Some(ct));
      }
      if httpMethod.None? {
        SetMethod(Some(POST));
      }
      if contentLength.None? && length.Some? {
        SetContentLength(length);
      }
    }

    method SetBody(body: Option<Data>)
      modifies this
      ensures Fields() == WithBody(old(Fields()), body)
      decreases if body.Some? then 1 else 0
    {
      if body.Some? {
        SetBodyStream(None);
        FillUnset(Bin, Some(|body.value|));
      }
      this.body := body;
    }

    method SetBodyStream(bodyStream: Option<Stream>)
      modifies this
      ensures Fields() == WithBodyStream(old(Fields()), bodyStream)
      decreases if bodyStream.Some? then 1 else 0
    {
      if bodyStream.Some? {
        SetBody(None);
        FillUnset(Bin, None);
      }
      this.bodyStream := bodyStream;
    }

    /**
     * `setURLParameters`: a non-empty map replaces the query with its encoding; otherwise
     * the query is kept, or dropped when `removeCurrentPercentEncodedQuery` is set.
     */
    method SetURLParameters(parameters: Option<map<string, Query.Param>>, removeCurrentPercentEncodedQuery: bool := false)
      modifies this
      ensures Fields() == WithURLParameters(old(Fields()), parameters, removeCurrentPercentEncodedQuery)
    {
      var query := url.query;
      if removeCurrentPercentEncodedQuery {
        query := None;
      }
      if parameters.Some? {
        if parameters.value != map[] {
          var queried := Query.Query(Query.UrlQueryAllowed, parameters.value);
          query := Some(queried);
        }
      }
      url := url.(query := query);
    }

    /** `addURLParameter`: a `nil` value changes nothing; otherwise `&key=value` is appended. */
    method AddURLParameter(key: string, value: Option<Query.Param>)
      modifies this
      ensures Fields() == WithURLParameter(old(Fields()), key, value)
    {
      if value.None? {
        return;
      }
      var queried := Query.Query(Query.UrlQueryAllowed, map[key := value.value]);
      var percentEncodedQuery := (if url.query.Some? then url.query.value + "&" else "") + queried;
      url := url.(query := Some(percentEncodedQuery));
    }

    /**
     * `setFormParameters`: the parameters' query encoding, converted by
     * `data(using:allowLossyConversion:)` (given as `encode`), becomes the body.
     */
    method SetFormParameters(parameters: Option<map<string, Query.Param>>, encode: string -> Option<Data>)
      modifies this
      ensures parameters.None? ==> Fields() == old(Fields())
      ensures parameters.Some? ==>
        Fields() == WithEncodedBody(old(Fields()), encode(Query.QueryString(Query.UrlQueryAllowed, parameters.value)), FormURL)
    {
      if parameters.None? {
        return;
      }
      var queried := Query.Query(Query.UrlQueryAllowed, parameters.value);
      body := encode(queried);
      FillUnset(FormURL, LengthOf(body));
    }

    /** `setStringBody`: the text, converted by `encode`, becomes the body. */
    method SetStringBody(stringBody: Option<string>, encode: string -> Option<Data>)
      modifies this
      ensures stringBody.None? ==> Fields() == old(Fields())
      ensures stringBody.Some? ==> Fields() == WithEncodedBody(old(Fields()), encode(stringBody.value), Txt)
    {
      if stringBody.None? {
        return;
      }
      body := encode(stringBody.value);
      FillUnset(Txt, LengthOf(body));
    }

    /**
     * The throwing encoders: `outcome` is `nil` for a `nil` argument, else what the
     * encoder returned or threw. A throw leaves every field as it was.
     */
    method SetEncoded(outcome: Option<Result<Data, AnyError>>, ct: ContentType) returns (thrown: Option<AnyError>)
      modifies this
      ensures outcome.Some? && outcome.value.Failure? ==> thrown == Some(outcome.value.error) && Fields() == old(Fields())
      ensures outcome.None? ==> thrown.None? && Fields() == old(Fields())
      ensures outcome.Some? && outcome.value.Success? ==>
        thrown.None? && Fields() == WithEncodedBody(old(Fields()), Some(outcome.value.value), ct)
    {
      thrown := None;
      if outcome.None? {
        return;
      }
      if outcome.value.Failure? {
        thrown := Some(outcome.value.error);
        return;
      }
      body := Some(outcome.value.value);
      FillUnset(ct, LengthOf(body));
    }

    /** `setJSONObject`: `JSONEncoder().encode`, JSON defaults. */
    method SetJSONObject(outcome: Option<Result<Data, AnyError>>) returns (thrown: Option<AnyError>)
      modifies this
      ensures outcome.Some? && outcome.value.Failure? ==> thrown == Some(outcome.value.error) && Fields() == old(Fields())
      ensures outcome.None? ==> thrown.None? && Fields() == old(Fields())
      ensures outcome.Some? && outcome.value.Success? ==>
        thrown.None? && Fields() == WithEncodedBody(old(Fields()), Some(outcome.value.value), Json)
    {
      thrown := SetEncoded(outcome, Json);
    }

    /** `setJSONBody`: `JSONSerialization.data(withJSONObject:options:)`, JSON defaults. */
    method SetJSONBody(outcome: Option<Result<Data, AnyError>>) returns (thrown: Option<AnyError>)
      modifies this
      ensures outcome.Some? && outcome.value.Failure? ==> thrown == Some(outcome.value.error) && Fields() == old(Fields())
      ensures outcome.None? ==> thrown.None? && Fields() == old(Fields())
      ensures outcome.Some? && outcome.value.Success? ==>
        thrown.None? && Fields() == WithEncodedBody(old(Fields()), Some(outcome.value.value), Json)
    {
      thrown := SetEncoded(outcome, Json);
    }

    /** `setPlistObject`: `PropertyListEncoder().encode`, property-list defaults. */
    method SetPlistObject(outcome: Option<Result<Data, AnyError>>) returns (thrown: Option<AnyError>)
      modifies this
      ensures outcome.Some? && outcome.value.Failure? ==> thrown == Some(outcome.value.error) && Fields() == old(Fields())
      ensures outcome.None? ==> thrown.None? && Fields() == old(Fields())
      ensures outcome.Some? && outcome.value.Success? ==>
        thrown.None? && Fields() == WithEncodedBody(old(Fields()), Some(outcome.value.value), Plist)
    {
      thrown := SetEncoded(outcome, Plist);
    }

    /** `setPlistBody`: `PropertyListSerialization.data(fromPropertyList:format:options:)`, property-list defaults. */
    method SetPlistBody(outcome: Option<Result<Data, AnyError>>) returns (thrown: Option<AnyError>)
      modifies this
      ensures outcome.Some? && outcome.value.Failure? ==> thrown == Some(outcome.value.error) && Fields() == old(Fields())
      ensures outcome.None? ==> thrown.None? && Fields() == old(Fields())
      ensures outcome.Some? && outcome.value.Success? ==>
        thrown.None? && Fields() == WithEncodedBody(old(Fields()), Some(outcome.value.value), Plist)
    {
      thrown := SetEncoded(outcome, Plist);
    }

    /** `setMultipartFormData`: a failed `encode()` changes nothing. */
    method SetMultipartFormData(form: Option<MultipartForm>) returns (thrown: Option<AnyError>)
      modifies this
      ensures form.None? ==> thrown.None? && Fields() == old(Fields())
      ensures form.Some? && form.value.encoded.Failure? ==>
        thrown == Some(form.value.encoded.error) && Fields() == old(Fields())
      ensures form.Some? && form.value.encoded.Success? ==>
        thrown.None? && Fields() == WithMultipart(old(Fields()), form.value.encoded.value, form.value.contentType, form.value.contentLength)
    {
      thrown := None;
      if form.None? {
        return;
      }
      if form.value.encoded.Failure? {
        thrown := Some(form.value.encoded.error);
        return;
      }
      body := Some(form.value.encoded.value);
      SetContentType(Some(Custom(form.value.contentType)));
      SetContentLength(Some(form.value.contentLength));
      if httpMethod.None? {
        SetMethod(Some(POST));
      }
    }

    method SetCustomBody(customBody: Option<Data>, ct: ContentType)
      modifies this
      ensures customBody.None? ==> Fields() == old(Fields())
      ensures customBody.Some? ==> Fields() == WithEncodedBody(old(Fields()), customBody, ct)
    {
      if customBody.None? {
        return;
      }
      body := customBody;
      FillUnset(ct, Some(|customBody.value|));
    }

    method SetHandleCookies(handleCookies: Option<bool>)
      modifies this
      ensures Fields() == old(Fields()).(handleCookies := handleCookies)
    {
      this.handleCookies := handleCookies;
    }

    method SetUsePipelining(usePipelining: Option<bool>)
      modifies this
      ensures Fields() == old(Fields()).(usePipelining := usePipelining)
    {
      this.usePipelining := usePipelining;
    }

    method SetBasicAuthorization(user: string, password: string)
      modifies this
      ensures Fields() == old(Fields()).(authorization := Some(Basic(user, password)))
    {
      authorization := Some(Basic(user, password));
    }

    method SetBearerAuthorization(token: string)
      modifies this
      ensures Fields() == old(Fields()).(authorization := Some(Bearer(token)))
    {
      authorization := Some(Bearer(token));
    }

    method SetCustomAuthorization(value: string)
      modifies this
      ensures Fields() == old(Fields()).(authorization := Some(CustomAuthorization(value)))
    {
      authorization := Some(CustomAuthorization(value));
    }

    /** `build()` */
    function Build(): (r: LeafRequest)
      reads this
      ensures Equal(r, NewRequest(url, httpMethod := httpMethod.GetOr(GET)))
      ensures r.body == body && r.bodyStream == bodyStream && r.headers == headers
    {
      BuildFrom(Fields())
    }
  }

  /** `init?(_ urlString: String)`: `nil` exactly when `URL(string:)`, given as `parse`, rejects the text. */
  method BuilderFromString(parse: string -> Option<Url>, urlString: string) returns (b: Builder?)
    ensures b == null <==> parse(urlString).None?
    ensures b != null ==> fresh(b) && b.Fields() == EmptyFields(parse(urlString).value)
  {
    var url := parse(urlString);
    if url.None? {
      return null;
    }
    b := new Builder(url.value);
  }

  /** `xs` without its first occurrence of `x`: `contains`, `index(of:)` and `remove(at:)`. */
  method Remove<T(==)>(xs: seq<T>, x: T) returns (r: seq<T>)
    ensures r + [x] == MoveToEnd(xs, x)
  {
    var i := 0;
    while i < |xs| && xs[i] != x
      invariant 0 <= i <= |xs|
      invariant x !in xs[..i]
    {
      i := i + 1;
    }
    if i < |xs| {
      r := xs[..i] + xs[i + 1..];
      MoveToEndAt(xs, x, i);
    } else {
      assert xs[..i] == xs;
      r := xs;
      MoveToEndAbsent(xs, x);
    }
  }

  // ---------------------------------------------------------------------------
  // Lemmas

  /** Moving the first occurrence at index `i` to the end. */
  lemma {:induction false} MoveToEndAt<T>(xs: seq<T>, x: T, i: nat)
    requires i < |xs| && xs[i] == x && x !in xs[..i]
    ensures MoveToEnd(xs, x) == xs[..i] + xs[i + 1..] + [x]
    decreases i
  {
    if i > 0 {
      assert xs[0] in xs[..i];
      assert xs[1..][..i - 1] == xs[1..i];
      MoveToEndAt(xs[1..], x, i - 1);
      assert xs[..i] == [xs[0]] + xs[1..][..i - 1];
      assert xs[i + 1..] == xs[1..][i..];
    }
  }

  /** Without an occurrence, `x` is appended. */
  lemma {:induction false} MoveToEndAbsent<T>(xs: seq<T>, x: T)
    requires x !in xs
    ensures MoveToEnd(xs, x) == xs + [x]
    decreases |xs|
  {
    if |xs| > 0 {
      assert xs[1..] + [x] == (xs + [x])[1..];
      assert x !in xs[1..] by { assert forall y :: y in xs[1..] ==> y in xs; }
      MoveToEndAbsent(xs[1..], x);
      assert xs == [xs[0]] + xs[1..];
    }
  }

  /** After the move `x` is last, and the list holds the same elements plus `x`. */
  lemma {:induction false} MoveToEndLast<T>(xs: seq<T>, x: T)
    ensures |MoveToEnd(xs, x)| > 0 && MoveToEnd(xs, x)[|MoveToEnd(xs, x)| - 1] == x
    ensures |MoveToEnd(xs, x)| == if x in xs then |xs| else |xs| + 1
    ensures forall y :: y in MoveToEnd(xs, x) <==> y in xs || y == x
    decreases |xs|
  {
    if |xs| > 0 && xs[0] != x {
      MoveToEndLast(xs[1..], x);
      assert xs == [xs[0]] + xs[1..];
      assert x in xs <==> x in xs[1..];
    } else if |xs| > 0 {
      assert xs == [xs[0]] + xs[1..];
    }
  }

  /** `xs` lists no element twice. */
  predicate NoDuplicates<T(==)>(xs: seq<T>)
  {
    forall i, j :: 0 <= i < j < |xs| ==> xs[i] != xs[j]
  }

  /** A list without duplicates stays without duplicates. */
  lemma {:induction false} MoveToEndNoDuplicates<T>(xs: seq<T>, x: T)
    requires NoDuplicates(xs)
    ensures NoDuplicates(MoveToEnd(xs, x))
    decreases |xs|
  {
    if |xs| > 0 {
      MoveToEndLast(xs[1..], x);
      if xs[0] == x {
        var r := xs[1..] + [x];
        forall i, j | 0 <= i < j < |r| ensures r[i] != r[j] {
          if j == |r| - 1 {
            assert r[i] == xs[i + 1];
          } else {
            assert r[i] == xs[i + 1] && r[j] == xs[j + 1];
          }
        }
      } else {
        MoveToEndNoDuplicates(xs[1..], x);
        var t := MoveToEnd(xs[1..], x);
        var r := [xs[0]] + t;
        forall i, j | 0 <= i < j < |r| ensures r[i] != r[j] {
          if i == 0 {
            assert r[j] == t[j - 1] && t[j - 1] in t;
            assert xs[0] !in xs[1..] by {
              forall k | 0 <= k < |xs[1..]| ensures xs[1..][k] != xs[0] {
                assert xs[1..][k] == xs[k + 1];
              }
            }
          } else {
            assert r[i] == t[i - 1] && r[j] == t[j - 1];
          }
        }
      }
    }
  }

  /** Without duplicates, adding the same value twice is adding it once. */
  lemma MoveToEndIdempotent<T>(xs: seq<T>, x: T)
    requires NoDuplicates(xs)
    ensures MoveToEnd(MoveToEnd(xs, x), x) == MoveToEnd(xs, x)
  {
    var r := MoveToEnd(xs, x);
    MoveToEndNoDuplicates(xs, x);
    MoveToEndLast(xs, x);
    var n := |r| - 1;
    assert x !in r[..n] by {
      forall k | 0 <= k < n ensures r[..n][k] != x {
        assert r[k] != r[n];
      }
    }
    MoveToEndAt(r, x, n);
    assert r[..n] + r[n + 1..] + [x] == r;
  }

  /** `Builder(r).build()` is `r`: GET, left unset, defaults back to GET. */
  lemma BuildRoundTrip(r: LeafRequest)
    ensures BuildFrom(FieldsOf(r)) == r
  {
  }

  /** `Builder(url).build()` is the request `init(url)` makes with every default. */
  lemma BuildDefaults(url: Url)
    ensures BuildFrom(EmptyFields(url)) == NewRequest(url)
  {
  }

  /** After `setBody` or `setBodyStream`, whatever the state before, body and stream are not both set. */
  lemma BodiesExclusive(f: RequestFields, body: Option<Data>, stream: Option<Stream>)
    ensures WithBody(f, body).body.None? || WithBody(f, body).bodyStream.None?
    ensures WithBodyStream(f, stream).body.None? || WithBodyStream(f, stream).bodyStream.None?
  {
  }

  /**
   * First set wins: a second `setBody` replaces the body but keeps the content type,
   * method and length that the first one filled in; only `nil` fields were filled by it.
   */
  lemma BodyDefaultsFirstSetWins(f: RequestFields, first: Data, second: Data)
    ensures var g := WithBody(WithBody(f, Some(first)), Some(second));
      && g.body == Some(second)
      && g.contentType == (if f.contentType.Some? then f.contentType else Some(Bin))
      && g.httpMethod == (if f.httpMethod.Some? then f.httpMethod else Some(POST))
      && g.contentLength == (if f.contentLength.Some? then f.contentLength else Some(|first|))
  {
  }

  /** `Builder(getRequest).setBody(data)` builds a POST; any other method is kept. */
  lemma BodyUpgradesGet(r: LeafRequest, data: Data)
    ensures BuildFrom(WithBody(FieldsOf(r), Some(data))).httpMethod == if r.httpMethod == GET then POST else r.httpMethod
    ensures BuildFrom(WithBody(FieldsOf(r), Some(data))).body == Some(data)
    ensures BuildFrom(WithBody(FieldsOf(r), Some(data))).bodyStream.None?
  {
  }

  /** A stream never sets the content length. */
  lemma StreamKeepsLength(f: RequestFields, stream: Option<Stream>)
    ensures WithBodyStream(f, stream).contentLength == f.contentLength
  {
  }

  /**
   * Multipart data overwrites a content type and length set before, where a custom body
   * (like the form and string bodies) keeps them.
   */
  lemma MultipartOverwrites(f: RequestFields, data: Data, mediaType: string, length: UInt64, ct: ContentType)
    requires f.contentType.Some? && f.contentLength.Some?
    ensures WithMultipart(f, data, mediaType, length).contentType == Some(Custom(mediaType))
    ensures WithMultipart(f, data, mediaType, length).contentLength == Some(length)
    ensures WithEncodedBody(f, Some(data), ct).contentType == f.contentType
    ensures WithEncodedBody(f, Some(data), ct).contentLength == f.contentLength
  {
  }

  /** After `addHeader(key, value)` the key maps to the value (or is gone for `nil`); other keys keep theirs. */
  lemma HeaderAdded(f: RequestFields, key: string, value: Option<string>, other: string)
    requires other != key
    ensures var hs := WithHeader(f, key, value).headers;
      && hs.Some?
      && (key in hs.value <==> value.Some?)
      && (value.Some? ==> hs.value[key] == value.value)
      && (other in hs.value <==> f.headers.Some? && other in f.headers.value)
      && (other in hs.value ==> hs.value[other] == f.headers.value[other])
  {
  }

  /** The added encoding or directive ends the list; an absent argument only creates the list. */
  lemma AddedEndsWith<T>(list: Option<seq<T>>, x: Option<T>)
    ensures Added(list, x).Some?
    ensures x.None? ==> Added(list, x).value == list.GetOr([])
    ensures x.Some? ==> var l := Added(list, x).value; |l| > 0 && l[|l| - 1] == x.value
  {
    if x.Some? {
      MoveToEndLast(list.GetOr([]), x.value);
    }
  }

  /** A `nil` or empty map leaves the query as it was, unless it is asked to be removed. */
  lemma URLParametersKeepQuery(f: RequestFields, parameters: Option<map<string, Query.Param>>)
    requires parameters.None? || parameters.value == map[]
    ensures WithURLParameters(f, parameters, false) == f
    ensures WithURLParameters(f, parameters, true).url.query.None?
  {
  }

  /**
   * A non-empty map replaces the query whatever was there; the rest of the address and
   * every other field are kept.
   */
  lemma URLParametersReplaceQuery(f: RequestFields, parameters: map<string, Query.Param>, removeCurrent: bool)
    requires parameters != map[]
    ensures WithURLParameters(f, Some(parameters), removeCurrent)
         == f.(url := f.url.(query := Some(Query.QueryString(Query.UrlQueryAllowed, parameters))))
  {
  }

  /** Adding one parameter to an address without a query is setting a one-entry map. */
  lemma AddToEmptyQueryIsSet(f: RequestFields, key: string, value: Query.Param)
    requires f.url.query.None?
    ensures WithURLParameter(f, key, Some(value)) == WithURLParameters(f, Some(map[key := value]), false)
  {
    var m := map[key := value];
    assert key in m;
    assert m != map[];
    var q := Query.QueryString(Query.UrlQueryAllowed, m);
    assert "" + q == q;
  }

  /** Adding a parameter to a query keeps the old query as a prefix, followed by `&`. */
  lemma AddKeepsQuery(f: RequestFields, key: string, value: Query.Param)
    requires f.url.query.Some?
    ensures var q := WithURLParameter(f, key, value := Some(value)).url.query;
      q.Some? && f.url.query.value + "&" <= q.value
  {
  }
}
