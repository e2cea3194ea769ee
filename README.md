# morph-via-openrouter, modelled in Dafny

morph-via-openrouter is a small HTTP service. It accepts "edit file" requests
made of a target file, instructions and an edit snippet. For each one it reads
the file, builds a two-message chat-completion request and sends it to the
Morph model through OpenRouter's OpenAI-compatible API. It then returns the
updated file as one JSON reply, or relays the upstream server-sent-event stream
unchanged.

This project models four parts of that service:

- configuration resolution (`config.ts`);
- the upstream client (`morphClient.ts`);
- the request handler (`handler.ts`);
- the HTTP front (`server.ts`).

The records of `types.ts` are modelled too. The modules are:

| module | file | models |
|---|---|---|
| `Wrappers` | `wrappers.dfy` | `Option` and `Result` |
| `Text` | `text.dfy` | ECMAScript `trim`/`trimEnd`, decimal rendering of numbers, UTF-8 byte length against a reference encoder (RFC 3629) |
| `Types` | `types.dfy` | the records of `types.ts` and a JSON value type |
| `Config` | `config.dfy` | `resolveConfig` and `sanitizeBaseUrl` |
| `Client` | `client.dfy` | `MorphClient`: endpoint resolution, headers, `complete`, `stream` |
| `Handler` | `handler.dfy` | `validatePayload`, `buildCompletionRequest`, `handleEditRequest`, `handleEditStream` |
| `Server` | `server.dfy` | routing, `sendJson`, the buffered and streaming edit paths, `readRequestBody`, the 500 fallback |

Code that only computes is written as functions:

- configuration;
- the client;
- the handler.

Each such function returns its result, which is either a value or the message
of the error thrown. The handler and the client also return the trace of
effects they performed: `ReadFile(path)` and `Fetch(request)`. Ordering
promises, such as "validation happens before any I/O", are then statements
about that trace. The source validates `validatePayload`'s fields with a loop,
and that loop is also given as the method `ValidatePayload`, which is proved
equal to the function `Validate`.

The HTTP front changes a response object step by step. It is therefore a class,
`ServerResponse`, whose fields are:

- the status;
- the headers;
- whether the headers were sent;
- the chunks written;
- whether the response has ended.

The methods over that class (`SendJson`, `HandleStandardEdit`,
`HandleStreamingEdit`, `RouteRequest`, `HandleRequest`) are proved to leave it
exactly as the pure specifications `Route` and `Respond` say.

The outside world enters only as parameters:

- the environment, as a map;
- the file system read and `fetch`;
- `response.json()`;
- `JSON.parse` and `JSON.stringify`;
- the WHATWG URL parser's `pathname` and its serialisation;
- `Number()` on a string.

Four behaviours of the code that are easy to miss:

- `routeRequest` tests `!req.url`, so an empty URL string is rejected with 400
  "Invalid request" just like a missing one (`Server.HasUrl`,
  `Server.NoUrlIsRejected`).
- A request body that is the JSON literal `null` parses successfully. The
  expression `payload.stream` then throws a `TypeError`, so the reply is 500
  "Internal server error", not 400 (`Server.NullPayloadIsInternalError`).
- An empty `MORPH_MODEL` is accepted and used as the model name, because `??`
  only falls through on `undefined` or `null`, never on `""` (`Config.EmptyModelAccepted`). An explicit
  empty `apiKey` option, by contrast, is rejected (`Config.ExplicitEmptyApiKeyFails`).
- The endpoint is `baseUrl + "/chat/completions"` exactly when the sanitised
  base has no query or fragment and does not end in `/`; a plain base that
  ends in `/` gets `baseUrl + "chat/completions"` (`Client.EndpointAppendsPath`,
  `Client.EndpointDropsQuery`). Relative resolution drops a query or
  fragment. A base whose serialisation ends in `//` keeps one trailing `/`
  after sanitising (`Config.SanitizedSlash`).

## Model

| member | source | states |
|---|---|---|
| Text.TrimEnd | src/handler.ts:32 | the result is a prefix of the input, everything removed is ECMAScript white space or a line terminator, and the result does not end in one |
| Text.Trim | src/handler.ts:61 | the result is a slice of the input with only white space before and after it, and is empty or neither starts nor ends with white space |
| Text.TrimStart | src/handler.ts:61 | the result is a suffix of the input, the removed prefix is all white space, and the result does not start with white space |
| Text.TrimEmptyIffAllSpace | src/handler.ts:61 | `s.trim() === ''` holds exactly when every character of `s` is white space or a line terminator |
| Text.TrimEndOfAllSpace | src/handler.ts:32 | a string made only of white space trims to nothing |
| Text.TrimEndIdempotent | src/handler.ts:32 | trimming the end twice is the same as trimming it once |
| Text.Concat | src/server.ts:97-103 | the concatenation of a single chunk is that chunk |
| Text.ConcatAppend | src/server.ts:97-103 | concatenating two runs of chunks one after the other is concatenating each and joining the results |
| Text.NatToDecimal | src/morphClient.ts:15 | the rendering of a status in a template literal is a non-empty digit string with no leading zero unless the number is 0 |
| Text.DecimalRoundTrip | src/morphClient.ts:15 | reading the rendered digits back gives the original number |
| Text.Utf8Length | src/server.ts:112 | `Buffer.byteLength` lies between one and four bytes per code point |
| Text.Utf8LengthIsEncodedLength | src/server.ts:112 | the byte length counted per code point equals the length of the UTF-8 encoding of RFC 3629 |
| Text.AsciiUtf8Length | src/server.ts:112 | an ASCII payload has exactly one byte per character |
| Types.ResponseToJson | src/types.ts:8-12 | the serialised response carries `updatedCode` and `model`, and carries `usage` exactly when it is present |
| Config.StripTrailingSlash | src/config.ts:53 | a string ending in `/` loses exactly that last `/`; any other string is unchanged |
| Config.SanitizeBaseUrl | src/config.ts:46-57 | an empty URL gives the default base; an unparsable one gives `Invalid MORPH_BASE_URL: <raw>`; otherwise the result is the serialised URL with one trailing `/` removed |
| Config.ResolveConfig | src/config.ts:21-44 | a missing or empty API key fails first with the fixed message; then a port that is not a positive integer fails with `Invalid port: <value>`; then an invalid base URL fails with its message; it succeeds exactly when none of these fails, with a positive port and a non-empty key, each field drawn from option, then environment, then default |
| Config.ExplicitEmptyApiKeyFails | src/config.ts:24-27 | an explicitly empty `apiKey` option is not replaced by the environment and fails |
| Config.DefaultPortWhenUnset | src/config.ts:29-30 | with no port option and `PORT` unset or empty, the port is 3333 |
| Config.ExplicitValuesWin | src/config.ts:24-36 | every option given explicitly wins over the environment |
| Config.EmptyBaseUrlMeansDefault | src/config.ts:46-49 | an empty base URL from either source becomes the OpenRouter default |
| Config.EmptyModelAccepted | src/config.ts:36 | an empty `MORPH_MODEL` is kept as the model, not replaced by the default |
| Config.OnlyFourVariablesMatter | src/config.ts:22-36 | two environments that agree on `MORPH_API_KEY`, `PORT`, `MORPH_BASE_URL` and `MORPH_MODEL` give the same result |
| Config.SanitizedSlash | src/config.ts:53 | a sanitised base still ends in `/` only if its serialisation ended in `//` |
| Client.JoinBase | src/morphClient.ts:35 | the base always ends in `/`, and a `/` is added only when it was missing |
| Client.BeforeQuery | src/morphClient.ts:36 | the base is cut exactly at its first `?` or `#`, so the result is plain, and a plain base is left as it is |
| Client.Directory | src/morphClient.ts:36 | the base is cut just after its last `/` (nothing after the cut is a `/`), the result is empty or ends in `/`, and a base ending in `/` is left as it is |
| Client.Endpoint | src/morphClient.ts:35-36 | the endpoint has no query or fragment and ends in `chat/completions`; what precedes that is the slash-joined base cut before its query or fragment and then just after its last `/` |
| Client.EndpointAppendsPath | src/morphClient.ts:35-36 | for a base with no query or fragment the endpoint is the base, a `/` if it lacked one, then `chat/completions` |
| Client.EndpointDropsQuery | src/morphClient.ts:35-36 | a base with a query or fragment never yields the base followed by the path |
| Client.ConfiguredEndpoint | src/morphClient.ts:35-36 | a resolved configuration whose base is plain gets `base + "/chat/completions"`, or `base + "chat/completions"` when the base kept a trailing `/` |
| Client.ForceStream | src/morphClient.ts:23 | the streamed request is the caller's request with `stream` set to true and every other field kept |
| Client.ForceStreamIsIdentityOnStreaming | src/morphClient.ts:23 | forcing the stream flag changes nothing exactly when it is already true |
| Client.StatusAfterPrefix | src/morphClient.ts:15 | a message built as prefix, decimal status, `): `, body text splits back into exactly those parts, and the digits read back as the status |
| Client.ErrorMessagesCarryStatus | src/morphClient.ts:13-28 | both error messages are their fixed prefix, the decimal status, then `): ` and the body text, and the status can be read back from them |
| Client.MorphClient.Headers | src/morphClient.ts:44-55 | the headers always have the JSON content type and the bearer key; `HTTP-Referer` and `X-Title` are present exactly when their variables are set and non-empty, and then carry those values |
| Client.MorphClient.Request | src/morphClient.ts:34-61 | every upstream request is a POST of the given body to the endpoint, which has no query or fragment, with the header dictionary carrying the bearer key |
| Client.MorphClient.Complete | src/morphClient.ts:10-20 | one POST of the unmodified request to the endpoint; a network failure propagates; a non-2xx status fails with `Morph API error (<status>): <text>`; a 2xx status yields the decoded body |
| Client.MorphClient.Stream | src/morphClient.ts:22-32 | one POST of the request with `stream` forced on; it succeeds exactly when the status is 2xx and a body is present, and then yields that body's chunks unchanged; otherwise it fails with `Morph API stream error (<status>): <text>` |
| Handler.Validate | src/handler.ts:53-65 | a non-object is rejected with the fixed message; otherwise the first of `target_file`, `instructions`, `editSnippet` that is not a non-blank string is named; it succeeds exactly when all three are valid, with their values read out |
| Handler.ValidateStopsAt | src/handler.ts:59-63 | when the fields before position i are valid and field i is not, validation fails naming field i |
| Handler.ValidatePayload | src/handler.ts:58-64 | the loop over the required fields returns exactly what `Validate` specifies |
| Handler.FieldValidIffNotBlank | src/handler.ts:61 | a field is valid exactly when it is a string with a character that is not white space |
| Handler.EmptyObjectRejected | tests/edit-handler.test.ts:7-19 | the empty payload is rejected naming `target_file` |
| Handler.UserContent | src/handler.ts:79 | the user message is the three values plus 37 fixed characters |
| Handler.UserContentRoundTrip | src/handler.ts:79 | the file, instructions and snippet can be recovered from the user message given their lengths |
| Handler.BuildCompletionRequest | src/handler.ts:73-97 | the configured model, exactly a system prompt then the user message, the given stream flag, no temperature and no token limit |
| Handler.FirstContent | src/handler.ts:26 | the content is present exactly when there is a first choice with a message that has content, and it is that content |
| Handler.ExtractResult | src/handler.ts:26-35 | an absent or empty first choice content fails with `Morph API returned an empty completion`; otherwise the code is the content trimmed at the end, with the model and usage copied |
| Handler.WhitespaceOnlyCompletion | src/handler.ts:26-32 | content made only of white space is accepted and yields empty code |
| Handler.HandleEditRequest | src/handler.ts:14-38 | an invalid payload fails with no effect; a failed read performs only the read; otherwise it reads the file and sends exactly one non-streaming request built from it; a network failure, a non-2xx status or a decoding failure becomes the error, and a decoded completion goes through the extraction |
| Handler.HandleEditStream | src/handler.ts:40-51 | the same validation and read, then one streaming request; it succeeds exactly when the reply is 2xx with a body, returning its chunks unchanged; a network failure propagates and any other reply fails with `Morph API stream error (<status>): <text>` |
| Handler.TracesReadBeforeFetch | src/handler.ts:14-50 | on both entry points the trace is empty, one read, or one read followed by one fetch |
| Server.Route | src/server.ts:30-65 | the routes partition the requests: no URL or an empty one is rejected; a URL without a pathname, a body that fails to arrive or a `null` body escapes as an exception; an unparsable edit body is malformed; GET /health is chosen exactly for that route and every other pair is not found; a parsed non-null edit payload is streamed exactly when `stream` is `true`, and buffered otherwise |
| Server.NoUrlIsRejected | src/server.ts:31-34 | a request with no URL, or an empty one, gets 400 `Invalid request` and no effect |
| Server.HealthAlwaysOk | src/server.ts:59-62 | GET /health gets 200 `{status:"ok"}` with no effect |
| Server.OtherRoutesNotFound | src/server.ts:64 | every other method and path gets 404 `Not found` |
| Server.MalformedBodyRejected | src/server.ts:42-48 | a body that does not parse gets 400 `Malformed JSON body` and the handlers never run |
| Server.NullPayloadIsInternalError | src/server.ts:50 | the body `null` gets 500 `Internal server error` |
| Server.JsonHeaders | src/server.ts:108-115 | the JSON reply has exactly the content type `application/json` and a `Content-Length` that is the UTF-8 byte length of the payload |
| Server.ErrorFrame | src/server.ts:90 | the error event is the `event: error` line and the `data: ` field name, the serialised `{error}` object, and the blank line closing the event |
| Server.BufferedReply | src/server.ts:67-75 | the buffered path sends one JSON body with its JSON headers and the handler's effects; 200 with the serialised result on success, 400 with the serialised error message on failure |
| Server.StreamingReply | src/server.ts:77-93 | the streaming path is 200 with the event-stream headers and the handler's effects, then the handler's chunks unchanged, or exactly one error frame for its error |
| Server.Respond | src/server.ts:11-65 | every reply has status 200, 400, 404 or 500; everything but the streaming path sends one body with its JSON headers; the streaming path is 200 with the event-stream headers; only the edit paths perform effects |
| Server.UnhandledIsInternalError | src/server.ts:12-17 | every exception escaping the router (a URL without a pathname, a failed request body, a `null` payload) is answered 500 `Internal server error` with no effect |
| Server.BufferedIsJson | src/server.ts:50-54 | a request that does not ask for streaming is answered with the `application/json` content type |
| Server.BufferedStatus | src/server.ts:67-75 | the buffered path answers 200 with the handler's result, or 400 with the handler's error message |
| Server.StreamingStatusFixed | src/server.ts:77-93 | whatever happens later, the streaming path always answers 200 with the event-stream headers, then the upstream chunks in order, or one `event: error` frame; its effects are exactly the handler's |
| Server.ValidationBeforeAnyEffect | src/handler.ts:18-47 | an invalid payload performs no file read and no fetch on either path |
| Server.ContentLengthIsBytesSent | src/server.ts:108-115 | every JSON reply sends one body whose UTF-8 length in bytes is its `Content-Length` |
| Server.ServerResponse.constructor | src/server.ts:11 | a fresh response has status 200, no headers, nothing written and is not finished |
| Server.ServerResponse.WriteHead | src/server.ts:78-83 | the status and headers are set only if no headers were sent yet; otherwise nothing changes |
| Server.ServerResponse.Write | src/server.ts:90 | a chunk is appended unless the response ended, and the status and headers stay as they were |
| Server.ServerResponse.End | src/server.ts:114 | the optional last chunk is appended and the response is finished; the status and headers stay as they were |
| Server.SendJson | src/server.ts:108-115 | the response shows the status, the JSON headers with the byte length, and the serialised body, and it has ended |
| Server.ReadRequestBody | src/server.ts:95-106 | the chunks are concatenated in arrival order, or the stream's error is returned |
| Server.HandleStandardEdit | src/server.ts:67-75 | the response and the effects are those `BufferedReply` specifies |
| Server.Relay | src/server.ts:87 | the piped chunks are appended in order after what was written, and the status, headers and open state are kept |
| Server.HandleStreamingEdit | src/server.ts:77-93 | the headers are committed first, then the chunks are relayed in order or one error frame is written; the response ends as `StreamingReply` specifies |
| Server.RouteRequest | src/server.ts:30-65 | it throws exactly when `Route` says the exception escapes, and then has touched neither the response nor the outside world; otherwise the response is `Respond`'s |
| Server.HandleRequest | src/server.ts:11-18 | every request ends in exactly the response and effects `Respond` specifies, with 500 for an exception that escapes |

## Left out

- `startServer`'s `listen` and the returned server: socket I/O and the process lifecycle are not modelled. Only the per-request callback is, as `Server.HandleRequest`.
- `cli.ts`, `index.ts` and `logger.ts`: argument parsing, the entry point and logging have no effect on replies. They are not part of this model.
- `JSON.parse`, `JSON.stringify`, the WHATWG URL parser and serialiser, and `Number()` are parameters. The model does not restate the standards behind them.
- `readFileSafely`'s `path.resolve(process.cwd(), …)`: the read capability receives `target_file` as given, and the working directory is not modelled.
- `Client.MorphClient.Complete`: `response.text()` and `response.json()` are taken to be total. A body that fails to read or to decode is a failure of the `decodeCompletion` capability.
- `Handler.ExtractResult`: the completion is a typed record. A reply whose JSON lacks a `choices` array, which throws a `TypeError` in the source, is not represented.
- `Handler.ExtractResult`: the source copies `completion.usage` as it arrives, so extra keys and non-integer counts pass through, and a reply without `model` omits it. The typed `Usage` record keeps only three optional integer counts, and the model is always a string.
- JSON object key order is not modelled: objects are maps and `JSON.stringify` is a parameter. The source's reply writes `updatedCode`, `model`, `usage` in insertion order, and the text and its `Content-Length` depend on that order only through the serialiser.
- `Server.HandleStreamingEdit`: an upstream stream that fails midway, and backpressure, are not modelled. The upstream body is a finite list of chunks that all arrive.
- `Server.ServerResponse.WriteHead`: Node throws `ERR_HTTP_HEADERS_SENT` on a second `writeHead`. Here that call returns `false` and changes nothing, and no path of the model makes such a call.
- Bytes on the wire are modelled as the strings they decode to. Chunk boundaries of the request body are kept, but a UTF-8 sequence split across two chunks is not.
- `Text.Utf8Length`: a lone surrogate code unit, which `Buffer.byteLength` counts as three bytes, is outside Dafny's `char` model of code points.
- `Config.Show`: a non-integral port is rendered by the `toNumber` capability's own text. Exponent notation of very large numbers is not reproduced.
- `Client.Endpoint`: URL resolution is modelled for serialised special URLs (http, https). Non-special schemes and dot segments in the path are not.
- `Server.JsonHeaders`: response header names are the five the server sets, modelled as an enumeration with their wire spellings (`Server.WireName`). Node's case-insensitive header table is not modelled.
