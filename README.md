# Leaf, modelled in Dafny

Leaf is a Swift HTTP client layered over `URLSession`. This project models its
orchestration layer and proves what that layer promises:

- `LeafRequest`, an immutable request value, and its `Builder`, a mutable staging
  object. The builder fills content type, content length and method only while they
  are unset. `addAcceptEncoding` and `addCacheControl` move an entry to the end of its
  list. `setBody` and `setBodyStream` clear each other; the other body setters leave the
  stream as it is.
- The builder's query-string encoder: sorted top-level keys, `key[sub]` and `key[]`
  pairs, Booleans as `1`/`0`, and percent-escaping that also encodes the delimiters of
  section 2.2 of RFC 3986, except `/` and `?`.
- The conversion between `LeafRequest` and `URLRequest`, which writes header values and
  parses them back (`Accept-Encoding` joined by `", "`).
- `LeafResponse` (content length −1 means "absent"), its builder, its equality (never
  true without a URL) and its decode-error enrichment.
- `LeafError`: two cases, accessors with fallbacks, context merging, and descriptions.
- `LeafTask`: its state machine, `async`/`sync`/`cached`, and identity by identifier.
- `LeafURLSession`: the interceptor folds, and `process`, which either retries a finished
  transfer as a new data transfer or delivers exactly one success or failure callback.
- `LeafTaskObserver`, which turns transport state and byte counters into progress.
- The session delegate, which answers authentication challenges and keeps its table of
  tasks.

Each Swift core file is one Dafny module. Pure code is modelled as datatypes, functions
and lemmas. Objects whose fields Leaf updates in place are classes whose methods state
their whole new state: the two builders, `LeafTask`, the session, the observer, the
delegate, and Foundation's `Progress` and `URLSessionTask` as far as Leaf drives them.
A closure invocation is recorded in the LeafTask's `delivered` log rather than run.

What Leaf leaves to the platform is a parameter of the model:

- the raw values of `LeafContentType`, `LeafCacheControl` and `LeafAuthorization`
  (a `Vocabulary` record);
- `CharacterSet.urlQueryAllowed`;
- `URL(string:)`;
- the outcome of each encoder;
- a dictionary's iteration order;
- `arc4random()`;
- `URLError` descriptions;
- the URL cache lookup;
- trust evaluation.

## Model

| member | source | states |
|---|---|---|
| `LeafTypes.MethodRawValueInverse` | Leaf/Core/LeafRequest.swift:23-25 | parsing the raw value of any `LeafMethod` gives that method back |
| `LeafTypes.ContentEncodingRawValueInverse` | Leaf/Core/LeafRequest.swift:27-29 | parsing the raw value of any `LeafContentEncoding` gives that encoding back |
| `LeafTypes.CachePolicyRawValueInverse` | Leaf/Core/LeafRequest.swift:15-17 | `LeafCachePolicy(rawValue:)` inverts `rawValue` (0 to 3) |
| `LeafTypes.ServiceTypeRawValueInverse` | Leaf/Core/LeafRequest.swift:19-21 | `LeafServiceType(rawValue:)` inverts `rawValue`, including 11 for call signalling |
| `LeafTypes.CachePolicyOf` | Leaf/Core/LeafRequest.swift:15-17 | a parsed policy has the given raw value, and every raw value 0 to 3 parses |
| `LeafTypes.ServiceTypeOf` | Leaf/Core/LeafRequest.swift:19-21 | a parsed service type has the given raw value |
| `LeafTypes.MethodOf` | Leaf/Core/LeafRequest.swift:23-25 | a parsed method has the given name as its raw value |
| `LeafTypes.ContentEncodingOf` | Leaf/Core/LeafRequest.swift:27-29 | a parsed content encoding has the given token as its raw value |
| `Errors.ErrorCode` | Leaf/Core/LeafError.swift:136-145 | the stored code when there is one; otherwise 0 for `.leaf` and 1 for `.parse` |
| `Errors.LocalizedDescription` | Leaf/Core/LeafError.swift:100-108 | starts with the message; equals it exactly when there is no underlying error or the underlying error's description is the message; otherwise message, a space, then that description |
| `Errors.Code` | Leaf/Core/LeafError.swift:15-22 | never nil: the stored code, or else `errorCode` |
| `Errors.Message` | Leaf/Core/LeafError.swift:33-40 | always the stored message |
| `Errors.Headers` | Leaf/Core/LeafError.swift:42-48 | the stored map for `.leaf`; always nil for `.parse` |
| `Errors.DebugDescription` | Leaf/Core/LeafError.swift:122-131 | the stored code, a space and the localized description when a code is stored; the localized description alone otherwise |
| `Errors.UserInfo` | Leaf/Core/LeafError.swift:147-156 | the description and failure-reason keys are always present; the underlying-error key is present iff there is an underlying error; no other key |
| `Errors.Unknown` | Leaf/Core/LeafError.swift:176-178 | a `.leaf` error with code 0 and message "Unknown", every other field nil |
| `Errors.LeafErrorFrom` | Leaf/Core/LeafError.swift:161-167 | a `.leaf` error carrying the cause's code and the cause itself; its localized description is the cause's description |
| `Errors.ParseErrorFrom` | Leaf/Core/LeafError.swift:169-174 | the same, as a `.parse` error |
| `Errors.HandleTransformError` | Leaf/Core/LeafError.swift:87-94 | a thrown `.leaf` error passes unchanged; a thrown `.parse` error keeps its message and object, and takes its own code or else the context's, and its own underlying error or else the context's |
| `Errors.Transform` | Leaf/Core/LeafError.swift:53-85 | a successful transformation is returned as is; a failure is merged with this error's code and underlying error |
| `Errors.HandleTransformIdempotent` | Leaf/Core/LeafError.swift:87-94 | merging the same context twice is the same as merging it once |
| `Errors.HandleTransformKeepsComplete` | Leaf/Core/LeafError.swift:87-94 | a `.parse` error that already has a code and an underlying error is left unchanged by any context |
| `Errors.UnknownDescriptions` | Leaf/Core/LeafError.swift:136-145 | `unknown` has error code 0, localized description "Unknown" and debug description "0 Unknown" |
| `Errors.LeafErrorFromKeepsDescription` | Leaf/Core/LeafError.swift:161-167 | wrapping an error with `leafError(from:)` keeps its code and description |
| `Errors.DescriptionsNest` | Leaf/Core/LeafError.swift:100-131 | the localized description starts with the message, and the debug description ends with the localized description |
| `Text.ParseUInt64` | Leaf/Core/LeafRequest+URLRequest.swift:50-53 | `UInt64(text)` yields only values from 0 to 2^64 − 1 |
| `Text.ParseInt64` | Leaf/URLSession/LeafURLSessionTaskObserver.swift:81 | `Int64(text)` yields only values from −2^63 to 2^63 − 1 |
| `Text.UInt64RoundTrip` | Leaf/Core/LeafRequest+URLRequest.swift:50-53 | the decimal text of any `UInt64` parses back to it |
| `Text.Int64RoundTrip` | Leaf/URLSession/LeafURLSessionTaskObserver.swift:81 | the decimal text of any `Int64`, negative ones included, parses back to it |
| `Text.SplitJoin` | Leaf/Core/LeafRequest+URLRequest.swift:35-37 | splitting on a separator undoes joining with it, when no part contains the separator's first character |
| `Text.CompactMapInverse` | Leaf/Core/LeafRequest+URLRequest.swift:35-41 | dropping unparsable values after mapping raw values through their inverse loses nothing |
| `Text.QuotesEscaped` | Leaf/Core/LeafRequest.swift:152-157 | after replacing every `"` by `\"`, every quote is preceded by a backslash |
| `KeyOrder.Sorted` | Leaf/Core/LeafRequest+Build.swift:443 | the keys in strictly ascending order, each once |
| `KeyOrder.SortedEnumerationUnique` | Leaf/Core/LeafRequest+Build.swift:443 | a set has only one strictly ascending enumeration, so the visiting order of `query` is determined |
| `KeyOrder.SortKeys` | Leaf/Core/LeafRequest+Build.swift:443 | `parameters.keys.sorted(by: <)` returns the keys in ascending order |
| `KeyOrder.LeastOf` | Leaf/Core/LeafRequest+Build.swift:443 | finds the least key of a non-empty set |
| `Query.EscapeAllowed` | Leaf/Core/LeafRequest+Build.swift:479-483 | the allowed set is within `urlQueryAllowed` and contains none of the general delimiters `:#[]@` or sub-delimiters `!$&'()*+,;=` |
| `Query.EscapeChar` | Leaf/Core/LeafRequest+Build.swift:485 | an allowed character is kept; any other becomes the percent-encoding of its UTF-8 bytes |
| `Query.Escape` | Leaf/Core/LeafRequest+Build.swift:478-486 | escaping never shortens a string; what it means is stated by `Query.EscapeDecodes` (decoding gives back the UTF-8 bytes), `Query.EscapeHasNoDelimiters` and `Query.EscapeKeepsAllowed` |
| `Query.PercentDecodeEscape` | Leaf/Core/LeafRequest+Build.swift:485 | a `%XY` triple decodes to the byte with those hexadecimal digits |
| `Query.EscapeHasNoDelimiters` | Leaf/Core/LeafRequest+Build.swift:478-486 | an escaped string contains no character of either delimiter set |
| `Query.EscapeKeepsAllowed` | Leaf/Core/LeafRequest+Build.swift:478-486 | a string made only of allowed characters is unchanged by escaping |
| `Query.EscapeDecodes` | Leaf/Core/LeafRequest+Build.swift:478-486 | percent-decoding an escaped string gives the string's UTF-8 bytes |
| `Query.EscapedKeysDistinct` | Leaf/Core/LeafRequest+Build.swift:478-486 | escaping is injective, so distinct keys stay distinct |
| `Query.BooleansAsDigits` | Leaf/Core/LeafRequest+Build.swift:463-470 | a Boolean becomes the single pair (escaped key, `1` or `0`) |
| `Query.QueryComponents` | Leaf/Core/LeafRequest+Build.swift:452-476 | a nested dictionary gives `key[entry-key]` pairs in its own order; an array gives `key[]` pairs in order; a scalar gives one escaped pair |
| `Query.Query` | Leaf/Core/LeafRequest+Build.swift:440-450 | the components of each key, keys in ascending order, written `key=value` and joined by `&` |
| `Query.FlatKeysComponents` | Leaf/Core/LeafRequest+Build.swift:440-476 | for a map of scalars there is exactly one pair per key, in key order |
| `Query.FlatQuerySplits` | Leaf/Core/LeafRequest+Build.swift:440-486 | for a map of scalars the query splits on `&` into one `key=value` piece per sorted key, and each piece splits on `=` into the escaped key and value |
| `QueryExample.NestedListExample` | Leaf/Core/LeafRequest+Build.swift:440-476 | `["q": "a b", "ids": [1, 2]]` encodes to `ids%5B%5D=1&ids%5B%5D=2&q=a%20b` |
| `Requests.NewRequestFromString` | Leaf/Core/LeafRequest.swift:71-101 | nil exactly when the URL text does not parse; otherwise a GET request for the parsed URL, built by `Requests.NewRequest`, the memberwise `init(_ url:)` with the source's defaults (`RequestBuilders.BuildDefaults` states those defaults) |
| `Requests.EqualIsEquivalence` | Leaf/Core/LeafRequest.swift:176-178 | request equality (`Requests.Equal`, the `==` of url and method only) is an equivalence |
| `Requests.HashAsWritten` | Leaf/Core/LeafRequest.swift:168-170 | the sum of the url's and method's hashes, defined only when that sum fits in `Int` |
| `Requests.Hash` | Leaf/Core/LeafRequest.swift:168-170 | agrees with the source's sum wherever that does not overflow |
| `Requests.EqualRequestsHashEqually` | Leaf/Core/LeafRequest.swift:166-180 | equal requests hash equally |
| `Requests.HashAsWrittenTraps` | Leaf/Core/LeafRequest.swift:168-170 | with a url hash of `Int.max` and a method hash of 1 the sum overflows |
| `Requests.DescriptionStartsWithMethod` | Leaf/Core/LeafRequest.swift:107-109 | `Requests.Description` is the method's raw value, a space, then the absolute URL; its first word parses back to the method |
| `Requests.ShownFields` | Leaf/Core/LeafRequest.swift:122-126 | the header fields shown are exactly those not among the five dedicated fields |
| `Requests.DebugDescription` | Leaf/Core/LeafRequest.swift:115-162 | the curl command: its components, in the source's order, joined by a backslash, a newline and a tab |
| `Requests.AppendHeaderLines` | Leaf/Core/LeafRequest.swift:122-126 | the loop appends one `-H` line per header-map field not among the dedicated fields, in the map's order |
| `Requests.AppendFieldLines` | Leaf/Core/LeafRequest.swift:128-150 | appends the line of each present dedicated field, in the source's order |
| `Requests.DebugFrame` | Leaf/Core/LeafRequest.swift:116-161 | the command starts with `$ curl -i` and ends with the quoted absolute URL |
| `Requests.DebugMethodFlag` | Leaf/Core/LeafRequest.swift:118-120 | a `-X METHOD` component appears iff the method is not GET, and then directly after `$ curl -i` |
| `Requests.DebugShownFields` | Leaf/Core/LeafRequest.swift:122-126 | a header-map field is shown iff it is not a dedicated field, and then with its value |
| `Requests.DebugAuthorization` | Leaf/Core/LeafRequest.swift:148-150 | an Authorization line appears iff the authorization is not `.none` |
| `Requests.DebugBodyQuotesEscaped` | Leaf/Core/LeafRequest.swift:152-157 | in the escaped body every quote is preceded by a backslash |
| `RequestBuilders.BuildFrom` | Leaf/Core/LeafRequest+Build.swift:433-435 | equal to a default request with the builder's url and method (GET when unset); a builder seeded from a request rebuilds its fields exactly |
| `RequestBuilders.LengthOf` | Leaf/Core/LeafRequest+Build.swift:194 | the byte count of the body, nil without a body |
| `RequestBuilders.Builder.constructor` | Leaf/Core/LeafRequest+Build.swift:79-81 | a builder with only a url set |
| `RequestBuilders.Builder.FromRequest` | Leaf/Core/LeafRequest+Build.swift:51-70 | every field is copied, except that GET becomes an unset method |
| `RequestBuilders.BuilderFromString` | Leaf/Core/LeafRequest+Build.swift:83-88 | nil iff the URL text does not parse; otherwise a fresh builder for that url |
| `RequestBuilders.Builder.SetCache` | Leaf/Core/LeafRequest+Build.swift:90-93 | sets the cache policy; nothing else changes |
| `RequestBuilders.Builder.SetTimeout` | Leaf/Core/LeafRequest+Build.swift:95-98 | sets the timeout; nothing else changes |
| `RequestBuilders.Builder.SetMainDocumentURL` | Leaf/Core/LeafRequest+Build.swift:100-103 | sets the main document URL; nothing else changes |
| `RequestBuilders.Builder.SetServiceType` | Leaf/Core/LeafRequest+Build.swift:105-108 | sets the service type; nothing else changes |
| `RequestBuilders.Builder.SetContentType` | Leaf/Core/LeafRequest+Build.swift:110-113 | sets the content type; nothing else changes |
| `RequestBuilders.Builder.SetContentLength` | Leaf/Core/LeafRequest+Build.swift:115-118 | sets the content length; nothing else changes |
| `RequestBuilders.Builder.SetAccept` | Leaf/Core/LeafRequest+Build.swift:120-123 | sets the accepted type; nothing else changes |
| `RequestBuilders.Builder.SetAcceptEncodings` | Leaf/Core/LeafRequest+Build.swift:125-128 | replaces the encoding list; nothing else changes |
| `RequestBuilders.Builder.AddAcceptEncoding` | Leaf/Core/LeafRequest+Build.swift:130-142 | the list becomes the old one (or `[]`) with the encoding moved to, or appended at, the end; nothing else changes |
| `RequestBuilders.Builder.SetCacheControls` | Leaf/Core/LeafRequest+Build.swift:144-147 | replaces the cache-control list; nothing else changes |
| `RequestBuilders.Builder.AddCacheControl` | Leaf/Core/LeafRequest+Build.swift:149-161 | the same move-to-end rule for cache-control directives |
| `RequestBuilders.Builder.SetAllowsCellularAccess` | Leaf/Core/LeafRequest+Build.swift:163-166 | sets the cellular flag; nothing else changes |
| `RequestBuilders.Builder.SetMethod` | Leaf/Core/LeafRequest+Build.swift:168-171 | sets the method; nothing else changes |
| `RequestBuilders.Builder.SetHeaders` | Leaf/Core/LeafRequest+Build.swift:173-176 | replaces the header map; nothing else changes |
| `RequestBuilders.Builder.AddHeader` | Leaf/Core/LeafRequest+Build.swift:178-184 | stores the value under the key in the header map, creating the map if needed; nothing else changes |
| `RequestBuilders.Builder.FillUnset` | Leaf/Core/LeafRequest+Build.swift:190-198 | content type, method (POST) and content length are set only where they are still unset |
| `RequestBuilders.Builder.SetBody` | Leaf/Core/LeafRequest+Build.swift:186-201 | a body clears the stream and fills the unset defaults (`.bin`, POST, its length); a nil body only clears the body |
| `RequestBuilders.Builder.SetBodyStream` | Leaf/Core/LeafRequest+Build.swift:337-349 | a stream clears the body and fills an unset content type (`.bin`) and method (POST), never the length; a nil stream only clears the stream |
| `RequestBuilders.Builder.SetURLParameters` | Leaf/Core/LeafRequest+Build.swift:203-219 | a non-empty map replaces the url's query by its encoding; otherwise the query is kept, or removed when asked to |
| `RequestBuilders.Builder.AddURLParameter` | Leaf/Core/LeafRequest+Build.swift:221-233 | a nil value changes nothing; otherwise the pair is appended to the query with `&`, or becomes the query |
| `RequestBuilders.Builder.SetFormParameters` | Leaf/Core/LeafRequest+Build.swift:235-250 | nil changes nothing; otherwise the encoded query becomes the body, filling only unset defaults (`.formURL`) |
| `RequestBuilders.Builder.SetStringBody` | Leaf/Core/LeafRequest+Build.swift:252-267 | nil changes nothing; otherwise the encoded text becomes the body, filling only unset defaults (`.txt`) |
| `RequestBuilders.Builder.SetEncoded` | Leaf/Core/LeafRequest+Build.swift:269-284 | an encoder failure is rethrown with nothing changed; a nil value changes nothing; encoded data becomes the body with unset defaults filled |
| `RequestBuilders.Builder.SetJSONObject` | Leaf/Core/LeafRequest+Build.swift:269-284 | the same, with content type `.json` |
| `RequestBuilders.Builder.SetJSONBody` | Leaf/Core/LeafRequest+Build.swift:286-301 | the same, with content type `.json` |
| `RequestBuilders.Builder.SetPlistObject` | Leaf/Core/LeafRequest+Build.swift:303-318 | the same, with content type `.plist` |
| `RequestBuilders.Builder.SetPlistBody` | Leaf/Core/LeafRequest+Build.swift:320-335 | the same, with content type `.plist` |
| `RequestBuilders.Builder.SetMultipartFormData` | Leaf/Core/LeafRequest+Build.swift:351-362 | an encoding failure is rethrown with nothing changed; otherwise the body, the form's content type and its length are set unconditionally |
| `RequestBuilders.Builder.SetCustomBody` | Leaf/Core/LeafRequest+Build.swift:364-380 | nil changes nothing; otherwise the data becomes the body, filling only unset defaults with the given type |
| `RequestBuilders.Builder.SetHandleCookies` | Leaf/Core/LeafRequest+Build.swift:382-385 | sets the cookie flag; nothing else changes |
| `RequestBuilders.Builder.SetUsePipelining` | Leaf/Core/LeafRequest+Build.swift:387-390 | sets the pipelining flag; nothing else changes |
| `RequestBuilders.Builder.SetBasicAuthorization` | Leaf/Core/LeafRequest+Build.swift:392-395 | sets `.basic(user, password)`; nothing else changes |
| `RequestBuilders.Builder.SetBearerAuthorization` | Leaf/Core/LeafRequest+Build.swift:397-400 | sets `.bearer(token)`; nothing else changes |
| `RequestBuilders.Builder.SetCustomAuthorization` | Leaf/Core/LeafRequest+Build.swift:402-405 | sets `.custom(value)`; nothing else changes |
| `RequestBuilders.Builder.Build` | Leaf/Core/LeafRequest+Build.swift:407-409 | equal to a default request with the builder's url and method, carrying its bodies and headers |
| `RequestBuilders.Remove` | Leaf/Core/LeafRequest+Build.swift:134-139 | removing the first occurrence and appending the element gives `MoveToEnd` |
| `RequestBuilders.MoveToEndAt` | Leaf/Core/LeafRequest+Build.swift:130-142 | with the element first at index i, the result is the list without index i, followed by the element |
| `RequestBuilders.MoveToEndAbsent` | Leaf/Core/LeafRequest+Build.swift:130-142 | an absent element is appended |
| `RequestBuilders.MoveToEndLast` | Leaf/Core/LeafRequest+Build.swift:130-142 | the result ends with the element, grows only when the element was absent, and holds exactly the old elements and the new one |
| `RequestBuilders.MoveToEndNoDuplicates` | Leaf/Core/LeafRequest+Build.swift:130-142 | a list without duplicates stays without duplicates |
| `RequestBuilders.MoveToEndIdempotent` | Leaf/Core/LeafRequest+Build.swift:130-142 | adding the same element twice is adding it once |
| `RequestBuilders.AddedEndsWith` | Leaf/Core/LeafRequest+Build.swift:130-142 | after an add the list exists; a nil argument leaves the old list (or `[]`); otherwise the list ends with the argument |
| `RequestBuilders.BuildRoundTrip` | Leaf/Core/LeafRequest+Build.swift:51-70 | building a builder seeded from a request gives that request back |
| `RequestBuilders.BuildDefaults` | Leaf/Core/LeafRequest+Build.swift:433-435 | a fresh builder builds the default request: `.useProtocolCachePolicy`, 60 s, `.default`, cellular allowed, GET, cookies and pipelining on, no authorization |
| `RequestBuilders.BodiesExclusive` | Leaf/Core/LeafRequest+Build.swift:186-201 | after either body setter, body and stream are never both set |
| `RequestBuilders.BodyDefaultsFirstSetWins` | Leaf/Core/LeafRequest+Build.swift:186-201 | a second body keeps the content type, method and length the first one set |
| `RequestBuilders.BodyUpgradesGet` | Leaf/Core/LeafRequest+Build.swift:51-70 | a GET request rebuilt with a body becomes POST; any other method is kept |
| `RequestBuilders.StreamKeepsLength` | Leaf/Core/LeafRequest+Build.swift:337-349 | the stream setter never changes the content length |
| `RequestBuilders.MultipartOverwrites` | Leaf/Core/LeafRequest+Build.swift:351-380 | multipart data overwrites a set content type and length; the other body setters keep them |
| `RequestBuilders.HeaderAdded` | Leaf/Core/LeafRequest+Build.swift:178-184 | the added key maps to the value; every other key is unchanged |
| `RequestBuilders.URLParametersKeepQuery` | Leaf/Core/LeafRequest+Build.swift:203-219 | a nil or empty map keeps the builder as it is, or only removes the query when asked to |
| `RequestBuilders.URLParametersReplaceQuery` | Leaf/Core/LeafRequest+Build.swift:203-219 | a non-empty map replaces the query by its encoding |
| `RequestBuilders.AddToEmptyQueryIsSet` | Leaf/Core/LeafRequest+Build.swift:221-233 | adding one parameter to a url without a query is setting a one-entry map |
| `RequestBuilders.AddKeepsQuery` | Leaf/Core/LeafRequest+Build.swift:221-233 | adding to an existing query keeps it as a prefix, followed by `&` and the new pair |
| `URLRequests.Value` | Leaf/Core/LeafRequest+URLRequest.swift:26-53 | a header value exists iff the store holds some spelling of the field, differing at most in the case of ASCII letters, and it is that entry's value |
| `URLRequests.SetValue` | Leaf/Core/LeafRequest+URLRequest.swift:64-73 | after `setValue` the field, in any spelling, reads back as the value written; only the header map changes |
| `URLRequests.SetValueKeeps` | Leaf/Core/LeafRequest+URLRequest.swift:64-73 | every spelling of the written field reads the value written; every field with another name keeps its value |
| `URLRequests.FromURLRequest` | Leaf/Core/LeafRequest+URLRequest.swift:22-55 | nil iff there is no url; otherwise the url and the header map are carried over, and the dedicated headers are read under any spelling |
| `URLRequests.ToURLRequest` | Leaf/Core/LeafRequest+URLRequest.swift:57-82 | the properties are copied; every spelling of a dedicated header reads what was written from its field (an unset Content-Length or Authorization is held over from the header map); every other header is held over from the header map; the body is preferred over the stream |
| `URLRequests.WriteHeaders` | Leaf/Core/LeafRequest+URLRequest.swift:64-73 | the six `setValue` calls: Content-Type, Accept, Accept-Encoding and Cache-Control are set from their fields or removed in every spelling when those are nil; Content-Length and Authorization are set only when the field is present, else the held-over value stays; every other header is held over from the header map |
| `URLRequests.BuilderFromURLRequest` | Leaf/Core/LeafRequest+Build.swift:72-77 | nil iff the URLRequest has no url; otherwise a fresh builder seeded from the parsed request |
| `URLRequests.FieldNamesDistinct` | Leaf/Core/LeafRequest+URLRequest.swift:13-20 | the six dedicated header names are pairwise distinct, even ignoring case |
| `URLRequests.ListRoundTrip` | Leaf/Core/LeafRequest+URLRequest.swift:35-41 | a list written with `", "` parses back to the same list when each raw value parses back and contains no comma |
| `URLRequests.EncodingListRoundTrip` | Leaf/Core/LeafRequest+URLRequest.swift:35-37 | any list of content encodings round-trips through its `Accept-Encoding` text |
| `URLRequests.URLRequestRoundTrip` | Leaf/Core/LeafRequest+URLRequest.swift:22-82 | parsing the serialisation of a request gives the request back, with the written header map, when its header map holds no spelling of a Content-Length or Authorization its fields leave unset |
| `URLRequests.ContentTypesRead` | Leaf/Core/LeafRequest+URLRequest.swift:26-33 | the written Content-Type and Accept headers parse back to the fields |
| `URLRequests.ContentLengthRead` | Leaf/Core/LeafRequest+URLRequest.swift:50-53 | the written Content-Length parses back to the field |
| `URLRequests.ListsRead` | Leaf/Core/LeafRequest+URLRequest.swift:34-41 | the written Accept-Encoding and Cache-Control lists parse back to the fields |
| `URLRequests.AuthorizationRead` | Leaf/Core/LeafRequest+URLRequest.swift:42-45 | the written Authorization parses back to the field, `.none` included |
| `URLRequests.UnknownMethodIsGet` | Leaf/Core/LeafRequest+URLRequest.swift:46-49 | a missing or unknown HTTP method parses as GET |
| `URLRequests.BadContentLengthIgnored` | Leaf/Core/LeafRequest+URLRequest.swift:50-53 | a Content-Length that is missing in every spelling, or is no `UInt64`, parses as nil |
| `URLRequests.MissingAuthorizationIsNone` | Leaf/Core/LeafRequest+URLRequest.swift:42-45 | an Authorization header missing in every spelling parses as `.none` |
| `URLRequests.ForeignCachePolicyIsDefault` | Leaf/Core/LeafRequest+URLRequest.swift:54 | a Foundation cache policy with no Leaf counterpart parses as `.useProtocolCachePolicy` |
| `URLRequests.StoreFields` | Leaf/Core/LeafRequest+URLRequest.swift:63 | assigning `allHTTPHeaderFields` keeps, for each field, one of its spellings with that spelling's value, and a lookup of any field is held over from the map |
| `URLRequests.SetHeaderFields` | Leaf/Core/LeafRequest+URLRequest.swift:63-73 | the header map is stored and the dedicated headers written; nothing but the header fields changes |
| `URLRequests.ValueWritten` | Leaf/Core/LeafRequest+URLRequest.swift:64-73 | after the six calls a field, in any spelling, reads what the getter wrote there, or what it read before when the getter leaves it alone |
| `URLRequests.WrittenHeadersSerialise` | Leaf/Core/LeafRequest+URLRequest.swift:63-73 | from a request that holds the header map, the six calls write the dedicated headers and hold every other field over |
| `URLRequests.ValueByName` | Leaf/Core/LeafRequest+URLRequest.swift:26-53 | two spellings of one field look up the same value |
| `URLRequests.HeldByOneSpelling` | Leaf/Core/LeafRequest+URLRequest.swift:63 | when the header map holds one spelling of a field, the held-over value is exactly that entry's |
| `URLRequests.LowerCaseLengthRead` | Leaf/Core/LeafRequest+URLRequest.swift:50-53 | a URLRequest whose only header is `content-length: 5` parses with content length 5 |
| `Responses.NewResponse` | Leaf/Core/LeafResponse.swift:41-54 | the content length is absent iff the argument is −1, and otherwise is the argument |
| `Responses.Handle` | Leaf/Core/LeafResponse.swift:84-94 | a `.parse` error gets the status code where its code is nil and the response object where its object is nil, keeping message and underlying; any other error is unchanged |
| `Responses.Transformed` | Leaf/Core/LeafResponse.swift:60-82 | a success is returned as is; a failure is enriched by `handle` |
| `Responses.Description` | Leaf/Core/LeafResponse.swift:111-130 | the loop builds the description the parts determine |
| `Responses.DebugDescription` | Leaf/Core/LeafResponse.swift:135-137 | the debug description is the description |
| `Responses.DescriptionJoinsParts` | Leaf/Core/LeafResponse.swift:111-130 | the description is the present parts (status, url, parenthesised localized description) joined by single spaces |
| `Responses.DescriptionEmpty` | Leaf/Core/LeafResponse.swift:111-130 | the description is empty iff no part is present |
| `Responses.DescriptionStartsWithStatus` | Leaf/Core/LeafResponse.swift:113-115 | with a status code, the description starts with it |
| `Responses.EqualNeedsUrls` | Leaf/Core/LeafResponse.swift:100-105 | `Responses.Equal`: responses without a url are never equal; with urls, equal iff the urls are |
| `Responses.EqualIsPartialEquivalence` | Leaf/Core/LeafResponse.swift:100-105 | equality is symmetric and transitive, and reflexive exactly on responses with a url |
| `Responses.HandleIdempotent` | Leaf/Core/LeafResponse.swift:84-94 | enriching twice is enriching once |
| `Responses.TransformedFailureHasCode` | Leaf/Core/LeafResponse.swift:84-94 | with a status code, an enriched parse failure always has a code |
| `ResponseBuilders.SeedFields` | Leaf/Core/LeafResponse+Build.swift:39-52 | without a seed every field is nil and the length is −1; with one, an absent length becomes −1 |
| `ResponseBuilders.BuildFrom` | Leaf/Core/LeafResponse+Build.swift:123-125 | the built length is absent iff the builder holds −1 |
| `ResponseBuilders.Builder.constructor` | Leaf/Core/LeafResponse+Build.swift:39-52 | the builder holds the seed's fields |
| `ResponseBuilders.Builder.SetURL` | Leaf/Core/LeafResponse+Build.swift:54-57 | sets the url; nothing else changes |
| `ResponseBuilders.Builder.SetMimeType` | Leaf/Core/LeafResponse+Build.swift:59-62 | sets the MIME type; nothing else changes |
| `ResponseBuilders.Builder.SetContentLength` | Leaf/Core/LeafResponse+Build.swift:64-67 | sets the content length; nothing else changes |
| `ResponseBuilders.Builder.SetTextEncoding` | Leaf/Core/LeafResponse+Build.swift:69-72 | sets the text encoding; nothing else changes |
| `ResponseBuilders.Builder.SetFilename` | Leaf/Core/LeafResponse+Build.swift:74-77 | sets the file name; nothing else changes |
| `ResponseBuilders.Builder.SetStatusCode` | Leaf/Core/LeafResponse+Build.swift:79-82 | sets the status code; nothing else changes |
| `ResponseBuilders.Builder.SetHeaders` | Leaf/Core/LeafResponse+Build.swift:84-87 | sets the headers; nothing else changes |
| `ResponseBuilders.Builder.SetDescription` | Leaf/Core/LeafResponse+Build.swift:89-92 | sets the localized description; nothing else changes |
| `ResponseBuilders.Builder.SetUserInfo` | Leaf/Core/LeafResponse+Build.swift:94-97 | sets the user info; nothing else changes |
| `ResponseBuilders.Builder.SetNetTask` | Leaf/Core/LeafResponse+Build.swift:99-102 | sets the LeafTask; nothing else changes |
| `ResponseBuilders.Builder.SetObject` | Leaf/Core/LeafResponse+Build.swift:104-107 | sets the response object; nothing else changes |
| `ResponseBuilders.Builder.Build` | Leaf/Core/LeafResponse+Build.swift:109-111 | builds the response the fields determine; the length is absent iff it is −1 |
| `ResponseBuilders.SeedRoundTrip` | Leaf/Core/LeafResponse+Build.swift:39-52 | seeding a builder from a response and building gives it back, for every response the initialiser can make |
| `ResponseBuilders.BuiltResponseRoundTrip` | Leaf/Core/LeafResponse+Build.swift:123-125 | every built response survives reseeding and rebuilding |
| `ResponseBuilders.EmptyBuild` | Leaf/Core/LeafResponse+Build.swift:39-52 | a builder without a seed builds a response with every field nil |
| `ResponseBuilders.UnknownLengthIsAbsent` | Leaf/Core/LeafResponse+Build.swift:64-67 | setting −1 and building gives an absent length; any other value is kept |
| `ResponseBuilders.ResponseCarriedOver` | Leaf/Core/LeafResponse+Build.swift:37-52 | the platform response has no setter and always carries over from the seed |
| `Tasks.LeafStateOf` | Leaf/Core/LeafTask.swift:31-33 | a `LeafState` exists exactly for raw values 0 to 4, with that raw value |
| `Tasks.TransportStateOf` | Leaf/URLSession/LeafURLSessionTaskObserver.swift:51 | a transport state exists exactly for raw values 0 to 3, with that raw value |
| `Tasks.TransportStatesMirror` | Leaf/URLSession/LeafURLSessionTaskObserver.swift:52-54 | every transport state has a `LeafState` with the same raw value |
| `Tasks.StateNamesDistinct` | Leaf/Core/LeafTask.swift:229-235 | distinct states have distinct names in a description |
| `Tasks.LeafTask.constructor` | Leaf/Core/LeafTask.swift:79-95 | the initial state is the argument, whatever response or error is given; the identifier is the argument or the random draw; the description defaults to the request's; the progress is the given one, the transport's, or a new one totalling the content length or 0; no retries and no closures |
| `Tasks.LeafTask.SetResponse` | Leaf/Core/LeafTask.swift:39-43 | assigning a response completes the LeafTask |
| `Tasks.LeafTask.SetError` | Leaf/Core/LeafTask.swift:49-53 | assigning an error completes the LeafTask |
| `Tasks.LeafTask.Resume` | Leaf/Core/LeafTask.swift:204-207 | the state becomes running, and a bound transport is sent one resume |
| `Tasks.LeafTask.Suspend` | Leaf/Core/LeafTask.swift:199-202 | the state becomes suspended, and a bound transport is sent one suspend |
| `Tasks.LeafTask.Cancel` | Leaf/Core/LeafTask.swift:194-197 | the state becomes canceling, and a bound transport is sent one cancel |
| `Tasks.LeafTask.Async` | Leaf/Core/LeafTask.swift:108-116 | a task that is not suspended is unchanged; a suspended one stores both closures and runs |
| `Tasks.LeafTask.Sync` | Leaf/Core/LeafTask.swift:118-130 | a task that is not suspended settles at once (response, else error, else an empty-message error); a suspended one gets a wait handle and runs |
| `Tasks.LeafTask.SyncAfterWait` | Leaf/Core/LeafTask.swift:130-138 | a timeout stores a timed-out `URLError` as the error; then the error wins over the response; with neither stored it gives the corrected outcome, `unknown`, where the source traps |
| `Tasks.LeafTask.Cached` | Leaf/Core/LeafTask.swift:141-160 | the stored response first; then, for a task with a request, the cached response; then the stored error; then a resource-unavailable error saying "Request not found." or "Cached response not found." |
| `Tasks.LeafTask.Retry` | Leaf/Core/LeafTask.swift:162-165 | stores the retry closure |
| `Tasks.LeafTask.SetProgressClosure` | Leaf/Core/LeafTask.swift:171-174 | stores the progress closure |
| `Tasks.LeafTask.Description` | Leaf/Core/LeafTask.swift:229-235 | builds the description the identifier, state and task description determine |
| `Tasks.TimedOutError` | Leaf/Core/LeafTask.swift:131-134 | a `.leaf` error with the timed-out code and the `URLError` as cause |
| `Tasks.UnavailableError` | Leaf/Core/LeafTask.swift:147-157 | a `.leaf` error with the resource-unavailable code, the given message and the `URLError` as cause |
| `Tasks.SettledOutcome` | Leaf/Core/LeafTask.swift:119-127 | success iff a response is stored; otherwise the stored error, or an error with an empty message |
| `Tasks.WokenOutcomeAsWritten` | Leaf/Core/LeafTask.swift:135-138 | traps iff neither a response nor an error is stored |
| `Tasks.WokenOutcome` | Leaf/Core/LeafTask.swift:135-138 | the error when there is one, else the response, else `unknown` |
| `Tasks.SyncPrecedence` | Leaf/Core/LeafTask.swift:118-138 | with both stored, the immediate branch returns the response but the woken branch throws the error |
| `Tasks.SyncBranchesAgree` | Leaf/Core/LeafTask.swift:118-138 | with exactly one stored, both branches agree, and the woken branch as written does not trap |
| `Tasks.WokenTrap` | Leaf/Core/LeafTask.swift:135-138 | with neither stored, the woken branch as written traps and the corrected one fails with `unknown` |
| `Tasks.EqualTasksHashEqually` | Leaf/Core/LeafTask.swift:211-225 | task equality (`Tasks.Equal`, on identifiers only) is an equivalence, and equal tasks hash equally under `Tasks.Hash`, the platform hash of the identifier |
| `Tasks.DescriptionNamesIdentifier` | Leaf/Core/LeafTask.swift:229-235 | the identifier can be read back from the description |
| `Sessions.WrapperRequest` | Leaf/URLSession/LeafURLSession.swift:126-133 | the wrapper's request is read from the current request, else the original request, else it is the given one |
| `Sessions.LeafErrorOf` | Leaf/URLSession/LeafURLSession.swift:152-157 | nil iff there is no transport error; otherwise a `.leaf` error with its code, description, the response headers and object, and the error as cause |
| `Sessions.SessionRequest` | Leaf/URLSession/LeafURLSession.swift:120-124 | a default request whose cache policy and timeout are the given ones, else the configuration's, with `.useProtocolCachePolicy` for a policy Leaf does not know |
| `Sessions.RetryDecision` | Leaf/URLSession/LeafURLSession.swift:163-164 | a retry happens iff the LeafTask has a request and its own closure, or else the session's, says so |
| `Sessions.Session.constructor` | Leaf/URLSession/LeafURLSession.swift:60-83 | no interceptors, no retry closure, the given challenge closure and trust policies, a fresh empty observer, and a fresh empty delegate of Leaf's own unless another delegate or an existing `URLSession` is given |
| `Sessions.Session.AddRequestInterceptor` | Leaf/URLSession/LeafURLSession.swift:85-87 | appends the interceptor |
| `Sessions.Session.AddResponseInterceptor` | Leaf/URLSession/LeafURLSession.swift:89-91 | appends the interceptor |
| `Sessions.Session.Observe` | Leaf/URLSession/LeafURLSession.swift:105-110 | the observer's and the delegate's tables both map the transport to the wrapper, or drop it for nil |
| `Sessions.Session.URLRequestOf` | Leaf/URLSession/LeafURLSession.swift:112-118 | serialises the request after folding every request interceptor over its builder, in order |
| `Sessions.Session.LeafResponseOf` | Leaf/URLSession/LeafURLSession.swift:135-150 | nil iff there is no platform response; otherwise the response after folding every response interceptor over its builder, in order |
| `Sessions.Session.Submit` | Leaf/URLSession/LeafURLSession+Data.swift:13-15 | a fresh suspended data transport carrying the intercepted, serialised request |
| `Sessions.Session.WrapTransport` | Leaf/URLSession/LeafURLSession.swift:126-133 | a fresh wrapper bound to the transport, with its identifier, state and progress, no retries and no closures |
| `Sessions.Session.DataTask` | Leaf/URLSession/LeafURLSession+Data.swift:13-23 | a fresh suspended wrapper on a fresh data transport, registered with the observer and the delegate |
| `Sessions.Session.Process` | Leaf/URLSession/LeafURLSession.swift:159-192 | stores response and error and keeps the request, priority, progress, closures, wait handle and metrics (`KeepsSetup`); retries iff `RetryDecision` says so, leaving the state `AfterRetry` describes (the wait not signalled) and the retry wrapper registered in the observer's and the delegate's tables; otherwise finishes as `AfterFinish` describes, with both tables unchanged |
| `Sessions.Session.Reissue` | Leaf/URLSession/LeafURLSession.swift:166-183 | a fresh retry wrapper without a request, registered in both tables under its transport, forwards to the LeafTask, which is rebound, counts one more retry and runs, its response, error, request, priority, progress, closures, wait handle and metrics kept |
| `Sessions.Session.Rebind` | Leaf/URLSession/LeafURLSession.swift:167-169 | the LeafTask moves to the new transport, counts one more retry, and ends running after one resume |
| `Sessions.Session.ForwardTo` | Leaf/URLSession/LeafURLSession.swift:170-182 | the retry wrapper loses its request, and its progress, success and failure closures forward to the LeafTask |
| `Sessions.Session.Conclude` | Leaf/URLSession/LeafURLSession.swift:184-191 | the wait is signalled once and the callbacks `Finish` chooses are delivered |
| `Sessions.Session.Complete` | Leaf/URLSession/LeafURLSession+Data.swift:15-19 | the wrapper gets the response folded through the response interceptors (none without a platform response) and the converted error, and keeps its request, priority, progress, closures, wait handle and metrics; then it retries (`AfterRetry`) or finishes (`AfterFinish`) as `RetryDecision` says, with the tables updated as in `Process` |
| `Sessions.Session.ForwardProgress` | Leaf/URLSession/LeafURLSession.swift:171-174 | the LeafTask takes the retry's progress and hands it to its own progress closure |
| `Sessions.Session.ForwardSuccess` | Leaf/URLSession/LeafURLSession.swift:175-178 | the LeafTask takes the retry's metrics and is processed with the response and no error: its other setup is kept, it retries again (`AfterRetry`) or finishes with the success callback (`AfterFinish`) as `RetryDecision` says, and the tables are updated as in `Process` |
| `Sessions.Session.ForwardFailure` | Leaf/URLSession/LeafURLSession.swift:179-182 | the LeafTask takes the retry's metrics and is processed with the error and no response: its other setup is kept, it retries again (`AfterRetry`) or finishes with the failure callback (`AfterFinish`) as `RetryDecision` says, and the tables are updated as in `Process` |
| `Sessions.AddedRequestInterceptorRunsLast` | Leaf/URLSession/LeafURLSession.swift:85-87 | an added request interceptor runs after all earlier ones |
| `Sessions.AddedResponseInterceptorRunsLast` | Leaf/URLSession/LeafURLSession.swift:89-91 | an added response interceptor runs after all earlier ones in `Sessions.FoldResponse`, the `forEach` over the response interceptors |
| `Sessions.FoldRequestConcat` | Leaf/URLSession/LeafURLSession.swift:112-118 | `Sessions.FoldRequest`, the `forEach` over the request interceptors, is a left fold: folding two lists is folding the first, then the second |
| `Sessions.NoRequestInterceptors` | Leaf/URLSession/LeafURLSession.swift:112-118 | without interceptors the request is unchanged |
| `Sessions.NoResponseInterceptors` | Leaf/URLSession/LeafURLSession.swift:135-150 | without interceptors the response is unchanged |
| `Sessions.TaskClosureFirst` | Leaf/URLSession/LeafURLSession.swift:163-164 | when the LeafTask's own closure asks for a retry, the session's is not consulted |
| `Sessions.NoRequestNoRetry` | Leaf/URLSession/LeafURLSession.swift:163 | a task without a request never retries |
| `Sessions.FinishDeliversOne` | Leaf/URLSession/LeafURLSession.swift:184-191 | `Sessions.Finish`, the non-retry branch's callbacks, delivers at most one: success with the response when there is one, else failure with the error or `unknown`; none only when that closure is unset |
| `Sessions.RetryWrapperNeverRetries` | Leaf/URLSession/LeafURLSession.swift:170 | a retry wrapper, which has no request, never retries on its own |
| `TaskObservers.ReportedState` | Leaf/URLSession/LeafURLSessionTaskObserver.swift:51 | a state is reported iff the key path is `state` and the new value is an integer that is a valid raw value |
| `TaskObservers.Mirrored` | Leaf/URLSession/LeafURLSessionTaskObserver.swift:52-54 | the wrapper's state has the transport state's raw value |
| `TaskObservers.CompletedUnits` | Leaf/URLSession/LeafURLSessionTaskObserver.swift:78 | the larger of the bytes received and sent |
| `TaskObservers.HeaderLength` | Leaf/URLSession/LeafURLSessionTaskObserver.swift:81 | a length comes only from an `X-Uncompressed-Content-Length` header |
| `TaskObservers.Observer.constructor` | Leaf/URLSession/LeafURLSessionTaskObserver.swift:27 | the table starts empty |
| `TaskObservers.Observer.Add` | Leaf/URLSession/LeafURLSessionTaskObserver.swift:29-34 | maps the transport to the wrapper, or drops it for nil |
| `TaskObservers.Observer.ObserveValue` | Leaf/URLSession/LeafURLSessionTaskObserver.swift:46-95 | ignores incomplete notifications; mirrors the state; suspension pauses, running resumes, canceling cancels; canceling and completion drop the entry and skip the counts; otherwise the progress gets the counts and the progress closure gets the progress; only the observed wrapper's state and delivered callbacks and its progress's counts, pause and cancel flags may change, and the pause (cancel) flag keeps its value unless a suspension or resumption (a cancellation) is reported |
| `TaskObservers.Publish` | Leaf/URLSession/LeafURLSessionTaskObserver.swift:78-94 | the progress gets the completed and total counts and the wrapper's progress closure, if any, is handed the progress |
| `TaskObservers.SyncProgress` | Leaf/URLSession/LeafURLSessionTaskObserver.swift:101-123 | a fresh pausable, cancellable progress with the total, controlling the transport |
| `TaskObservers.PausingHandler` | Leaf/URLSession/LeafURLSessionTaskObserver.swift:105-109 | suspends the transport unless it is already suspended |
| `TaskObservers.CancellationHandler` | Leaf/URLSession/LeafURLSessionTaskObserver.swift:110-114 | cancels the transport unless it is already canceling |
| `TaskObservers.ResumingHandler` | Leaf/URLSession/LeafURLSessionTaskObserver.swift:116-120 | resumes the transport unless it is already running |
| `TaskObservers.Guarded` | Leaf/URLSession/LeafURLSessionTaskObserver.swift:105-121 | a handler sends its command iff its guard holds |
| `TaskObservers.HeaderOverridesTotal` | Leaf/URLSession/LeafURLSessionTaskObserver.swift:79-83 | `TaskObservers.TotalUnits`: a header that parses as an `Int64` decides the total, whatever the counters say |
| `TaskObservers.TotalWithoutHeader` | Leaf/URLSession/LeafURLSessionTaskObserver.swift:79 | without a usable header `TaskObservers.TotalUnits` is the larger expected count |
| `TaskObservers.WrittenLengthOverrides` | Leaf/URLSession/LeafURLSessionTaskObserver.swift:81-83 | a header holding the decimal text of a length makes that length the total |
| `TaskObservers.HandlersIdle` | Leaf/URLSession/LeafURLSessionTaskObserver.swift:105-121 | each handler sends nothing exactly when the transport is already in its target state |
| `TaskObservers.CountNotificationsReportNoState` | Leaf/URLSession/LeafURLSessionTaskObserver.swift:51 | a byte-count notification never reports a state |
| `SessionDelegates.HandleChallenge` | Leaf/URLSession/LeafURLSessionDelegate.swift:77-117 | delegated iff the session has its own challenge closure; a repeated challenge is cancelled with no credential and the sender told; otherwise a credential is used iff there is one |
| `SessionDelegates.Delegate.constructor` | Leaf/URLSession/LeafURLSessionDelegate.swift:15-20 | the table starts empty |
| `SessionDelegates.Delegate.Add` | Leaf/URLSession/LeafURLSessionDelegate.swift:22-24 | maps the transport to the wrapper, or drops it for nil |
| `SessionDelegates.Delegate.DidReceive` | Leaf/URLSession/LeafURLSessionDelegate.swift:37-39 | the decision for the mapped wrapper's request, or for no request |
| `SessionDelegates.Delegate.DidFinishCollecting` | Leaf/URLSession/LeafURLSessionDelegate.swift:42-47 | the mapped wrapper gets the metrics with its request and response, and the entry is dropped; nothing else of the wrapper changes |
| `SessionDelegates.Delegate.WaitingForConnectivity` | Leaf/URLSession/LeafURLSessionDelegate.swift:55-59 | the mapped wrapper's state becomes waiting-for-connectivity, and nothing else changes |
| `SessionDelegates.MethodNamesDistinct` | Leaf/URLSession/LeafURLSessionDelegate.swift:91-100 | the Basic and Digest method names differ from the server-trust one |
| `SessionDelegates.BasicAuthorizationAnswers` | Leaf/URLSession/LeafURLSessionDelegate.swift:91-98 | through `SessionDelegates.BasicStep`, a first Basic or Digest challenge whose proposed credential has no password, for a request with `.basic` authorization, is answered with that user and password |
| `SessionDelegates.ServerTrustDecision` | Leaf/URLSession/LeafURLSessionDelegate.swift:100-111 | through `SessionDelegates.TrustStep`, a first server-trust challenge with no proposed credential is accepted with the server's trust iff the host has no policy or its policy accepts, and cancelled otherwise |
| `SessionDelegates.ProposedCredentialOtherwise` | Leaf/URLSession/LeafURLSessionDelegate.swift:89-113 | any other first challenge uses the proposed credential iff there is one |
| `SessionDelegates.PasswordCredentialKept` | Leaf/URLSession/LeafURLSessionDelegate.swift:91 | on a first challenge, a proposed credential with a password is used as is, whatever the method |

## Left out

- Transport factories beyond the data task for a `LeafRequest` (Leaf/URLSession/LeafURLSession+Data.swift for URLs, strings and `URLRequest`s; +Download, +Upload, +Stream): each creates a platform task and routes its completion into `process`. `Sessions.Session.DataTask` and `Sessions.Session.Complete` stand for that path.
- The facades and the static default session (Leaf.swift, Leaf/Core/LeafType.swift): they only delegate to the session.
- Leaf/Simple and Leaf/Promise: convenience glue; the promise extension depends on an external library.
- The Foundation adapters (LeafResponse+HTTPURLResponse, +CachedURLResponse, +URLResponse, LeafTask+URLSessionTask, LeafTaskMetrics and its adapter): field copies from platform objects. A response built from a platform response is an input (`adapted`); metrics are an opaque record.
- Blocking and concurrency: the semaphore wait in `sync` is split into `Sync` and `SyncAfterWait`, with the timeout an input. Key-value observation registration and removal, `becomeCurrent`/`resignCurrent`, `deinit` and delegate queues are not modelled.
- `earliestBeginDate`: it only forwards to the transport and depends on the platform version.
- `URLComponents`: a URL is given already split into the part before the query, the percent-encoded query and the fragment. `URL(string:)` is a parameter.
- `CharacterSet.urlQueryAllowed`: the encoder functions (`Query.Escape`, `Query.QueryComponents`, `Query.Query`) take the allowed set as a parameter. The builder's query and form setters (`SetURLParameters`, `AddURLParameter`, `SetFormParameters`) and the worked example encode with `Query.UrlQueryAllowed`, which spells out the platform's `CharacterSet.urlQueryAllowed`.
- Query values of type `Any`: only strings, integers, Booleans, arrays and dictionaries are modelled. Floating-point `NSNumber` descriptions are left out.
- Encoders (`String.data(using:)`, `JSONEncoder`, `JSONSerialization`, the property-list encoders, the multipart encoder) are given outcomes.
- `LeafContentType`, `LeafCacheControl` and `LeafAuthorization` raw values come from a `Vocabulary` parameter, because their definitions are not part of this model.
- `LeafTransformer`: the outcome of decoding is given, and only the error merging is modelled.
- `URLCache.shared` is the `lookup` parameter of `Cached`; `URLError` descriptions are the `describe` parameter.
- Trust evaluation (`LeafServerTrust.evaluate`) is a parameter, and the session's own challenge closure is only recorded as `Delegated`. The realm printing is left out.
- `arc4random()` is the `random` parameter of the LeafTask constructor.
- Hash values of URLs and identifiers are parameters.
- `TimeInterval` and `Float` values are exact reals; they are only stored and copied.
- Interceptors act on a snapshot of the builder rather than on the builder object, so an interceptor that keeps the builder and changes it later is not modelled.
- Dictionary iteration order (the header lines of `debugDescription`, nested query dictionaries) is an input.
- `Tasks.LeafTask.constructor`: requires a content length that fits in `Int64` when it sizes a new progress, because `Int64(contentLength)` traps otherwise.
- `Sessions.Session.Submit`: the transport's identifier is a parameter, where `URLSession` numbers its tasks itself.
- `URLRequests.Value`: header names are compared after folding ASCII letters to lower case. Foundation's comparison also ignores the case of non-ASCII letters, which the model does not fold; header names are ASCII tokens.
- `URLRequests.StoreFields`: when the header map holds several spellings of one field, which one Foundation keeps is not specified. The model keeps an arbitrary one, so the getter's contract says only that the value is one of theirs.
- `URLRequests.SetValue`: the entry written takes the spelling passed to `setValue`; which spelling Foundation keeps for a replaced entry is not modelled, only the values read back.
- `Tasks.LeafTask.SyncAfterWait`: gives the corrected outcome (`LeafError.unknown`) where `response!` at Leaf/Core/LeafTask.swift:137 traps; the trap itself is `Tasks.WokenOutcomeAsWritten` (see Findings).
- `Errors.HandleTransformError`: requires the thrown error to be a `LeafError`, because the `as!` cast at Leaf/Core/LeafError.swift:87-94 traps on any other error; that trap is not modelled. `Errors.Transform` inherits the requirement for its failure case.
- `KeyOrder.Sorted`: keys are compared character by character. Swift's `String` ordering and equality use Unicode canonical equivalence, so a precomposed and a decomposed "é" are one key in Swift and two here.

## Findings

| source | as written | input that shows it | evidently intended | confidence | as-written member | corrected member |
|---|---|---|---|---|---|---|
| Leaf/Core/LeafRequest.swift:168-170 | `hashValue` adds the url's and the method's hash values with Swift's checked `+`, which traps on overflow | a url whose hash value is `Int.max`, with a method whose hash value is 1 | a hash that never traps, such as the wrapping sum `&+`; equal requests still hash equally | not executed | `Requests.HashAsWritten` (with `Requests.HashAsWrittenTraps`) | `Requests.Hash` (with `Requests.EqualRequestsHashEqually`) |
| Leaf/Core/LeafTask.swift:135-138 | after the wait, `sync` returns `response!`, which traps when neither a response nor an error is stored | a transfer that completes with neither, or a `process` call with both nil | throw an error, as the non-blocking branch and `process` (`LeafError.unknown`) do | not executed | `Tasks.WokenOutcomeAsWritten` (with `Tasks.WokenTrap`) | `Tasks.WokenOutcome` (with `Tasks.SyncBranchesAgree`) |
