/**
 * `LeafResponse.Builder`: a mutable copy of a response's fields. It is seeded from an
 * optional response (with the content-length sentinel for "absent"), each setter
 * overwrites one field, and `build` runs the response initialiser on the fields.
 */
module ResponseBuilders {
  import opened Wrappers
  import opened LeafTypes
  import opened Responses

  /** A snapshot of a builder's fields; `contentLength` holds −1 for "absent". */
  datatype ResponseFields = ResponseFields(
    url: Option<Url>,
    mimeType: Option<string>,
    contentLength: Int64,
    textEncoding: Option<string>,
    filename: Option<string>,
    statusCode: Option<int>,
    headers: Option<map<string, string>>,
    localizedDescription: Option<string>,
    userInfo: Option<Payload>,
    leafTask: Option<TaskRef>,
    responseObject: Option<Payload>,
    response: Option<NativeResponse>)

  /** The fields `init(_ leafResponse: LeafResponse? = nil)` starts from. */
  function SeedFields(seed: Option<LeafResponse>): (f: ResponseFields)
    ensures seed.None? ==> f == ResponseFields(None, None, UnknownLength, None, None, None, None, None, None, None, None, None)
    ensures seed.Some? ==> f.contentLength == seed.value.contentLength.GetOr(UnknownLength)
  {
    if seed.None? then ResponseFields(None, None, UnknownLength, None, None, None, None, None, None, None, None, None)
    else
      var r := seed.value;
      ResponseFields(r.url, r.mimeType, r.contentLength.GetOr(UnknownLength), r.textEncoding, r.filename,
                     r.statusCode, r.headers, r.localizedDescription, r.userInfo, r.leafTask, r.responseObject,
                     r.response)
  }

  /** `init(_ builder: Builder)`: the response initialiser applied to the builder's fields. */
  function BuildFrom(f: ResponseFields): (r: LeafResponse)
    ensures r.contentLength.None? <==> f.contentLength == UnknownLength
  {
    NewResponse(f.url, f.mimeType, f.contentLength, f.textEncoding, f.filename, f.statusCode, f.headers,
                f.localizedDescription, f.userInfo, f.leafTask, f.responseObject, f.response)
  }

  class Builder {
    var url: Option<Url>
    var mimeType: Option<string>
    var contentLength: Int64
    var textEncoding: Option<string>
    var filename: Option<string>
    var statusCode: Option<int>
    var headers: Option<map<string, string>>
    var localizedDescription: Option<string>
    var userInfo: Option<Payload>
    var leafTask: Option<TaskRef>
    var responseObject: Option<Payload>
    var response: Option<NativeResponse>

    function Fields(): ResponseFields
      reads this
    {
      ResponseFields(url, mimeType, contentLength, textEncoding, filename, statusCode, headers,
                     localizedDescription, userInfo, leafTask, responseObject, response)
    }

    constructor (seed: Option<LeafResponse>)
      ensures Fields() == SeedFields(seed)
    {
      url := if seed.Some? then seed.value.url else None;
      mimeType := if seed.Some? then seed.value.mimeType else None;
      contentLength := if seed.Some? then seed.value.contentLength.GetOr(UnknownLength) else UnknownLength;
      textEncoding := if seed.Some? then seed.value.textEncoding else None;
      filename := if seed.Some? then seed.value.filename else None;
      statusCode := if seed.Some? then seed.value.statusCode else None;
      headers := if seed.Some? then seed.value.headers else None;
      localizedDescription := if seed.Some? then seed.value.localizedDescription else None;
      userInfo := if seed.Some? then seed.value.userInfo else None;
      leafTask := if seed.Some? then seed.value.leafTask else None;
      responseObject := if seed.Some? then seed.value.responseObject else None;
      response := if seed.Some? then seed.value.response else None;
    }

    method SetURL(url: Option<Url>)
      modifies this
      ensures Fields() == old(Fields()).(url := url)
    {
      this.url := url;
    }

    method SetMimeType(mimeType: Option<string>)
      modifies this
      ensures Fields() == old(Fields()).(mimeType := mimeType)
    {
      this.mimeType := mimeType;
    }

    method SetContentLength(contentLength: Int64)
      modifies this
      ensures Fields() == old(Fields()).(contentLength := contentLength)
    {
      this.contentLength := contentLength;
    }

    method SetTextEncoding(textEncoding: Option<string>)
      modifies this
      ensures Fields() == old(Fields()).(textEncoding := textEncoding)
    {
      this.textEncoding := textEncoding;
    }

    method SetFilename(filename: Option<string>)
      modifies this
      ensures Fields() == old(Fields()).(filename := filename)
    {
      this.filename := filename;
    }

    method SetStatusCode(statusCode: Option<int>)
      modifies this
      ensures Fields() == old(Fields()).(statusCode := statusCode)
    {
      this.statusCode := statusCode;
    }

    method SetHeaders(headers: Option<map<string, string>>)
      modifies this
      ensures Fields() == old(Fields()).(headers := headers)
    {
      this.headers := headers;
    }

    method SetDescription(localizedDescription: Option<string>)
      modifies this
      ensures Fields() == old(Fields()).(localizedDescription := localizedDescription)
    {
      this.localizedDescription := localizedDescription;
    }

    method SetUserInfo(userInfo: Option<Payload>)
      modifies this
      ensures Fields() == old(Fields()).(userInfo := userInfo)
    {
      this.userInfo := userInfo;
    }

    method SetNetTask(leafTask: Option<TaskRef>)
      modifies this
      ensures Fields() == old(Fields()).(leafTask := leafTask)
    {
      this.leafTask := leafTask;
    }

    method SetObject(responseObject: Option<Payload>)
      modifies this
      ensures Fields() == old(Fields()).(responseObject := responseObject)
    {
      this.responseObject := responseObject;
    }

    /** `build()` */
    function Build(): (r: LeafResponse)
      reads this
      ensures r == BuildFrom(Fields())
      ensures r.response == response && r.url == url && r.statusCode == statusCode
      ensures r.contentLength.None? <==> contentLength == UnknownLength
    {
      BuildFrom(Fields())
    }
  }

  // ---------------------------------------------------------------------------
  // Lemmas

  /** Seeding a builder with a response and building gives the response back; only a stored −1 length is lost. */
  lemma SeedRoundTrip(r: LeafResponse)
    ensures BuildFrom(SeedFields(Some(r))) == r <==> r.contentLength != Some(UnknownLength)
  {
    if r.contentLength == Some(UnknownLength) {
      assert BuildFrom(SeedFields(Some(r))).contentLength.None?;
    }
  }

  /** Every response a builder makes survives another trip through a builder. */
  lemma BuiltResponseRoundTrip(f: ResponseFields)
    ensures BuildFrom(SeedFields(Some(BuildFrom(f)))) == BuildFrom(f)
  {
    SeedRoundTrip(BuildFrom(f));
  }

  /** An empty builder builds a response with every field absent. */
  lemma EmptyBuild()
    ensures BuildFrom(SeedFields(None)) == LeafResponse(None, None, None, None, None, None, None, None, None, None, None, None)
  {
  }

  /** Setting the length to −1 makes it absent in the built response; any other length is kept. */
  lemma UnknownLengthIsAbsent(f: ResponseFields, contentLength: Int64)
    ensures BuildFrom(f.(contentLength := contentLength)).contentLength
         == if contentLength == UnknownLength then None else Some(contentLength)
  {
  }

  /** The native response has no setter: whatever is set, it is the seed's. */
  lemma ResponseCarriedOver(seed: Option<LeafResponse>, f: ResponseFields)
    requires f.response == SeedFields(seed).response
    ensures BuildFrom(f).response == (if seed.Some? then seed.value.response else None)
  {
  }
}
