/**
 * The HTTP front: routing by method and path, JSON replies with their
 * Content-Length, the buffered edit path, and the two-phase streaming path
 * (headers committed first, then body frames). The response object is
 * updated in place like Node's ServerResponse; Route and Respond state what a
 * request must produce, and the methods are proved to produce it.
 */
module Server {
  import opened Wrappers
  import opened Types
  import Text
  import opened Client
  import opened Handler

  /** The response headers the server sets. */
  datatype HeaderName = ContentType | ContentLength | Connection | CacheControl | TransferEncoding

  /** A header's name as it is sent. */
  function WireName(h: HeaderName): string
  {
    match h
    case ContentType => "Content-Type"
    case ContentLength => "Content-Length"
    case Connection => "Connection"
    case CacheControl => "Cache-Control"
    case TransferEncoding => "Transfer-Encoding"
  }

  /** A header value: Node accepts strings and numbers. */
  datatype HeaderValue = TextValue(s: string) | NumberValue(n: nat)

  /** A request body as its 'data' events deliver it, closed by 'end' or by an 'error'. */
  datatype BodyStream = BodyStream(chunks: seq<string>, error: Option<string>)

  datatype IncomingRequest = IncomingRequest(url: Option<string>, verb: string, body: BodyStream)

  /** The library functions the front calls: URL's pathname, JSON.parse and JSON.stringify. */
  datatype Platform = Platform(
    pathnameOf: string -> Option<string>,
    parseJson: string -> Option<Json>,
    stringify: Json -> string)

  const EventStreamHeaders: map<HeaderName, HeaderValue> := map[
    ContentType := TextValue("text/event-stream"),
    Connection := TextValue("keep-alive"),
    CacheControl := TextValue("no-cache"),
    TransferEncoding := TextValue("chunked")]

  const HealthBody: Json := JObject(map["status" := JString("ok")])

  /** sendJson's headers: the JSON content type and the body's length in UTF-8 bytes. */
  function JsonHeaders(payload: string): (h: map<HeaderName, HeaderValue>)
    ensures h.Keys == {ContentType, ContentLength}
    ensures h[ContentType] == TextValue("application/json")
    ensures h[ContentLength] == NumberValue(|Text.Utf8Encode(payload)|)
  {
    Text.Utf8LengthIsEncodedLength(payload);
    map[ContentType := TextValue("application/json"), ContentLength := NumberValue(Text.Utf8Length(payload))]
  }

  function ErrorBody(message: string): Json
  {
    JObject(map["error" := JString(message)])
  }

  /** The event name line and the data field's name of an error event. */
  const ErrorFramePrefix: string := "event: error\ndata: "

  /** The server-sent event written when the streaming path fails after its headers went out. */
  function ErrorFrame(message: string, lib: Platform): (f: string)
    ensures |f| == |ErrorFramePrefix| + |lib.stringify(ErrorBody(message))| + 2
    ensures f[..|ErrorFramePrefix|] == ErrorFramePrefix
    ensures f[|ErrorFramePrefix|..|f| - 2] == lib.stringify(ErrorBody(message))
    ensures f[|f| - 2..] == "\n\n"
  {
    var data := lib.stringify(ErrorBody(message));
    var f := ErrorFramePrefix + data + "\n\n";
    assert f[..|ErrorFramePrefix|] == ErrorFramePrefix;
    assert f[|ErrorFramePrefix|..|f| - 2] == data;
    f
  }

  /** `payload.stream === true` (for a payload that is not null). */
  predicate StreamRequested(p: Json)
  {
    p.JObject? && "stream" in p.fields && p.fields["stream"] == JBool(true)
  }

  /** `req.url` is truthy: present and not the empty string. */
  predicate HasUrl(req: IncomingRequest)
  {
    req.url.Some? && req.url.value != ""
  }

  /** POST to the path /edit_file. */
  predicate IsEditRoute(req: IncomingRequest, lib: Platform)
  {
    HasUrl(req) && req.verb == "POST" && lib.pathnameOf(req.url.value) == Some("/edit_file")
  }

  /** GET to the path /health. */
  predicate IsHealthRoute(req: IncomingRequest, lib: Platform)
  {
    HasUrl(req) && req.verb == "GET" && lib.pathnameOf(req.url.value) == Some("/health")
  }

  /** What routeRequest decides to do with a request. */
  datatype Action =
    | RejectNoUrl
    | Unhandled         // an exception escapes routeRequest
    | Malformed
    | Buffered(payload: Json)
    | Streaming(payload: Json)
    | Health
    | NotFound

  /**
   * routeRequest's decision tree. A URL the parser rejects, a body that fails
   * to arrive, and a `null` payload (whose `.stream` throws) all escape as
   * exceptions.
   */
  function Route(req: IncomingRequest, lib: Platform): (a: Action)
    ensures a == RejectNoUrl <==> !HasUrl(req)
    ensures a == Health <==> IsHealthRoute(req, lib)
    ensures a == NotFound <==>
      HasUrl(req) && lib.pathnameOf(req.url.value).Some? && !IsEditRoute(req, lib) && !IsHealthRoute(req, lib)
    ensures a == Malformed <==>
      IsEditRoute(req, lib) && req.body.error.None? && lib.parseJson(Text.Concat(req.body.chunks)).None?
    ensures a == Unhandled <==>
      HasUrl(req) &&
      (lib.pathnameOf(req.url.value).None? ||
       (IsEditRoute(req, lib) && (req.body.error.Some? || lib.parseJson(Text.Concat(req.body.chunks)) == Some(JNull))))
    ensures IsEditRoute(req, lib) && req.body.error.None? && lib.parseJson(Text.Concat(req.body.chunks)).Some? ==>
      var p := lib.parseJson(Text.Concat(req.body.chunks)).value;
      !p.JNull? ==> a == (if StreamRequested(p) then Streaming(p) else Buffered(p))
    ensures (a.Buffered? || a.Streaming?) ==>
      && IsEditRoute(req, lib) && req.body.error.None?
      && Some(a.payload) == lib.parseJson(Text.Concat(req.body.chunks)) && !a.payload.JNull?
      && (a.Streaming? <==> StreamRequested(a.payload))
  {
    if !HasUrl(req) then RejectNoUrl
    else match lib.pathnameOf(req.url.value)
      case None => Unhandled
      case Some(path) =>
        if req.verb == "POST" && path == "/edit_file" then
          if req.body.error.Some? then Unhandled
          else match lib.parseJson(Text.Concat(req.body.chunks))
            case None => Malformed
            case Some(p) => if p.JNull? then Unhandled else if StreamRequested(p) then Streaming(p) else Buffered(p)
        else if req.verb == "GET" && path == "/health" then Health
        else NotFound
  }

  /** What the caller observes: status, headers, body chunks in order; and the effects performed. */
  datatype Observed = Observed(status: nat, headers: map<HeaderName, HeaderValue>, written: seq<string>, trace: seq<Effect>)

  /** sendJson's reply: the serialised body, sent once, with its byte length. */
  function JsonReply(status: nat, body: Json, lib: Platform, trace: seq<Effect>): Observed
  {
    var payload := lib.stringify(body);
    Observed(status, JsonHeaders(payload), [payload], trace)
  }

  /** handleStandardEdit: 200 with the result, or 400 with the error message. */
  function BufferedReply(config: ServerConfig, payload: Json, host: Host, lib: Platform): (r: Observed)
    ensures var o := HandleEditRequest(config, payload, host);
      && r.trace == o.trace
      && |r.written| == 1 && r.headers == JsonHeaders(r.written[0])
      && (o.result.Success? ==> r.status == 200 && r.written[0] == lib.stringify(ResponseToJson(o.result.value)))
      && (o.result.Failure? ==> r.status == 400 && r.written[0] == lib.stringify(ErrorBody(o.result.error)))
  {
    var o := HandleEditRequest(config, payload, host);
    match o.result
    case Success(v) => JsonReply(200, ResponseToJson(v), lib, o.trace)
    case Failure(e) => JsonReply(400, ErrorBody(e), lib, o.trace)
  }

  /** handleStreamingEdit: 200 with event-stream headers, then the chunks or one error frame. */
  function StreamingReply(config: ServerConfig, payload: Json, host: Host, lib: Platform): (r: Observed)
    ensures var o := HandleEditStream(config, payload, host);
      && r.status == 200 && r.headers == EventStreamHeaders && r.trace == o.trace
      && (o.result.Success? ==> r.written == o.result.value)
      && (o.result.Failure? ==> |r.written| == 1 && r.written[0] == ErrorFrame(o.result.error, lib))
  {
    var o := HandleEditStream(config, payload, host);
    match o.result
    case Success(chunks) => Observed(200, EventStreamHeaders, chunks, o.trace)
    case Failure(e) => Observed(200, EventStreamHeaders, [ErrorFrame(e, lib)], o.trace)
  }

  /** The reply to a request, including the 500 for an exception escaping routeRequest. */
  function Respond(config: ServerConfig, req: IncomingRequest, host: Host, lib: Platform): (r: Observed)
    ensures r.status in {200, 400, 404, 500}
    ensures !Route(req, lib).Streaming? ==> |r.written| == 1 && r.headers == JsonHeaders(r.written[0])
    ensures Route(req, lib).Streaming? ==> r.status == 200 && r.headers == EventStreamHeaders
    ensures r.trace != [] ==> Route(req, lib).Buffered? || Route(req, lib).Streaming?
  {
    match Route(req, lib)
    case RejectNoUrl => JsonReply(400, ErrorBody("Invalid request"), lib, [])
    case Unhandled => JsonReply(500, ErrorBody("Internal server error"), lib, [])
    case Malformed => JsonReply(400, ErrorBody("Malformed JSON body"), lib, [])
    case Health => JsonReply(200, HealthBody, lib, [])
    case NotFound => JsonReply(404, ErrorBody("Not found"), lib, [])
    case Buffered(p) => BufferedReply(config, p, host, lib)
    case Streaming(p) => StreamingReply(config, p, host, lib)
  }

  /** A request without a URL gets 400 and nothing else happens. */
  lemma NoUrlIsRejected(config: ServerConfig, req: IncomingRequest, host: Host, lib: Platform)
    requires !HasUrl(req)
    ensures Respond(config, req, host, lib) == JsonReply(400, ErrorBody("Invalid request"), lib, [])
  {
  }

  /** GET /health answers 200 {status:"ok"} whatever the configuration, body or capabilities. */
  lemma HealthAlwaysOk(config: ServerConfig, req: IncomingRequest, host: Host, lib: Platform)
    requires IsHealthRoute(req, lib)
    ensures Respond(config, req, host, lib) == JsonReply(200, HealthBody, lib, [])
  {
  }

  /** Any other method and path pair is 404. */
  lemma OtherRoutesNotFound(config: ServerConfig, req: IncomingRequest, host: Host, lib: Platform)
    requires HasUrl(req) && lib.pathnameOf(req.url.value).Some?
    requires !IsEditRoute(req, lib) && !IsHealthRoute(req, lib)
    ensures Respond(config, req, host, lib) == JsonReply(404, ErrorBody("Not found"), lib, [])
  {
  }

  /** A body JSON.parse rejects gets 400 before either handler runs. */
  lemma MalformedBodyRejected(config: ServerConfig, req: IncomingRequest, host: Host, lib: Platform)
    requires IsEditRoute(req, lib)
    requires req.body.error.None? && lib.parseJson(Text.Concat(req.body.chunks)).None?
    ensures Respond(config, req, host, lib) == JsonReply(400, ErrorBody("Malformed JSON body"), lib, [])
  {
  }

  /** The body `null` parses, but reading its `.stream` throws: the reply is 500, not 400. */
  lemma NullPayloadIsInternalError(config: ServerConfig, req: IncomingRequest, host: Host, lib: Platform)
    requires IsEditRoute(req, lib)
    requires req.body.error.None? && lib.parseJson(Text.Concat(req.body.chunks)) == Some(JNull)
    ensures Respond(config, req, host, lib) == JsonReply(500, ErrorBody("Internal server error"), lib, [])
  {
  }

  /**
   * Every exception that escapes routeRequest (a URL without a pathname, a
   * request body that fails, a `null` payload) becomes 500 with no effect.
   */
  lemma UnhandledIsInternalError(config: ServerConfig, req: IncomingRequest, host: Host, lib: Platform)
    requires Route(req, lib).Unhandled?
    ensures Respond(config, req, host, lib) == JsonReply(500, ErrorBody("Internal server error"), lib, [])
    ensures HasUrl(req)
    ensures lib.pathnameOf(req.url.value).None? || req.body.error.Some?
            || lib.parseJson(Text.Concat(req.body.chunks)) == Some(JNull)
  {
  }

  /** A buffered reply is always labelled JSON. */
  lemma BufferedIsJson(config: ServerConfig, req: IncomingRequest, host: Host, lib: Platform)
    requires Route(req, lib).Buffered?
    ensures var h := Respond(config, req, host, lib).headers;
      ContentType in h && h[ContentType] == TextValue("application/json")
  {
    BufferedStatus(config, req, host, lib);
  }

  /** On the buffered path, 200 carries the handler's result and every failure is 400 with its message. */
  lemma BufferedStatus(config: ServerConfig, req: IncomingRequest, host: Host, lib: Platform)
    requires Route(req, lib).Buffered?
    ensures var o := HandleEditRequest(config, Route(req, lib).payload, host);
      && (o.result.Success? ==> Respond(config, req, host, lib) == JsonReply(200, ResponseToJson(o.result.value), lib, o.trace))
      && (o.result.Failure? ==> Respond(config, req, host, lib) == JsonReply(400, ErrorBody(o.result.error), lib, o.trace))
  {
  }

  /**
   * Once the event-stream headers are chosen the status is 200 whatever
   * happens; success relays the upstream chunks in order, failure writes one
   * error frame.
   */
  lemma StreamingStatusFixed(config: ServerConfig, req: IncomingRequest, host: Host, lib: Platform)
    requires Route(req, lib).Streaming?
    ensures var r := Respond(config, req, host, lib); var o := HandleEditStream(config, Route(req, lib).payload, host);
      && r.status == 200 && r.headers == EventStreamHeaders && r.trace == o.trace
      && (o.result.Success? ==> r.written == o.result.value)
      && (o.result.Failure? ==> r.written == [ErrorFrame(o.result.error, lib)])
  {
  }

  /** An invalid payload reaches neither the file system nor the network, on either path. */
  lemma ValidationBeforeAnyEffect(config: ServerConfig, req: IncomingRequest, host: Host, lib: Platform)
    requires Route(req, lib).Buffered? || Route(req, lib).Streaming?
    requires Validate(Route(req, lib).payload).Failure?
    ensures Respond(config, req, host, lib).trace == []
  {
  }

  /** Every JSON reply declares as Content-Length exactly the number of bytes of the body it sends. */
  lemma ContentLengthIsBytesSent(config: ServerConfig, req: IncomingRequest, host: Host, lib: Platform)
    requires !Route(req, lib).Streaming?
    ensures var r := Respond(config, req, host, lib);
      |r.written| == 1 && r.headers[ContentLength] == NumberValue(|Text.Utf8Encode(r.written[0])|)
  {
  }

  /**
   * Node's ServerResponse reduced to what the relay uses. Headers are sent
   * once, by writeHead or implicitly by the first write or end; after that no
   * method changes the status or the headers.
   */
  class ServerResponse {
    var statusCode: nat
    var headers: map<HeaderName, HeaderValue>
    var headersSent: bool
    var written: seq<string>
    var finished: bool

    ghost predicate Valid()
      reads this
    {
      (finished ==> headersSent) && (written != [] ==> headersSent)
    }

    /** The response shows the observed status, headers and body, and is complete. */
    ghost predicate Shows(o: Observed)
      reads this
    {
      statusCode == o.status && headers == o.headers && written == o.written && headersSent && finished
    }

    constructor ()
      ensures Valid() && statusCode == 200 && headers == map[] && !headersSent && written == [] && !finished
    {
      statusCode, headers, headersSent, written, finished := 200, map[], false, [], false;
    }

    /** writeHead: refused (Node throws) once the headers are out. */
    method WriteHead(status: nat, hs: map<HeaderName, HeaderValue>) returns (ok: bool)
      requires Valid()
      modifies this
      ensures Valid()
      ensures ok == !old(headersSent)
      ensures ok ==> statusCode == status && headers == hs && headersSent
                     && written == old(written) && finished == old(finished)
      ensures !ok ==> unchanged(this)
    {
      ok := !headersSent;
      if ok {
        statusCode, headers, headersSent := status, hs, true;
      }
    }

    /** write: appends a chunk, sending the headers first if they are not out; refused after end. */
    method Write(chunk: string) returns (ok: bool)
      requires Valid()
      modifies this
      ensures Valid()
      ensures ok == !old(finished)
      ensures ok ==> written == old(written) + [chunk] && headersSent && !finished
                     && statusCode == old(statusCode) && headers == old(headers)
      ensures !ok ==> unchanged(this)
    {
      ok := !finished;
      if ok {
        written, headersSent := written + [chunk], true;
      }
    }

    /** end: appends the last chunk, if any, and finishes; a second end changes nothing. */
    method End(data: Option<string>)
      requires Valid()
      modifies this
      ensures Valid() && finished && headersSent
      ensures statusCode == old(statusCode) && headers == old(headers)
      ensures written == if old(finished) || data.None? then old(written) else old(written) + [data.value]
    {
      if !finished {
        if data.Some? {
          written := written + [data.value];
        }
        headersSent, finished := true, true;
      }
    }
  }

  /** sendJson: status, JSON content type and byte length, then the body, and end. */
  method SendJson(res: ServerResponse, status: nat, body: Json, lib: Platform)
    requires res.Valid() && !res.headersSent
    modifies res
    ensures res.Valid() && res.Shows(JsonReply(status, body, lib, []))
  {
    var payload := lib.stringify(body);
    var ok := res.WriteHead(status, JsonHeaders(payload));
    res.End(Some(payload));
  }

  /** readRequestBody: `data += chunk` for every chunk, then the whole text, or the stream's error. */
  method ReadRequestBody(body: BodyStream) returns (r: Result<string, string>)
    ensures r.Success? <==> body.error.None?
    ensures r.Success? ==> r.value == Text.Concat(body.chunks)
    ensures r.Failure? ==> r.error == body.error.value
  {
    var data := "";
    for i := 0 to |body.chunks|
      invariant data == Text.Concat(body.chunks[..i])
    {
      assert body.chunks[..i + 1][..i] == body.chunks[..i];
      data := data + body.chunks[i];
    }
    assert body.chunks[..|body.chunks|] == body.chunks;
    if body.error.Some? {
      return Failure(body.error.value);
    }
    return Success(data);
  }

  /** handleStandardEdit. */
  method HandleStandardEdit(config: ServerConfig, payload: Json, host: Host, lib: Platform, res: ServerResponse)
    returns (trace: seq<Effect>)
    requires res.Valid() && !res.headersSent
    modifies res
    ensures res.Valid() && res.Shows(BufferedReply(config, payload, host, lib))
    ensures trace == BufferedReply(config, payload, host, lib).trace
  {
    var o := HandleEditRequest(config, payload, host);
    trace := o.trace;
    match o.result
    case Success(v) =>
      SendJson(res, 200, ResponseToJson(v), lib);
    case Failure(e) =>
      SendJson(res, 400, ErrorBody(e), lib);
  }

  /** pipeline(stream, res): every chunk, in order, after what was already written; the response stays open. */
  method Relay(chunks: seq<string>, res: ServerResponse)
    requires res.Valid() && !res.finished
    modifies res
    ensures res.Valid() && !res.finished && (chunks != [] ==> res.headersSent) && res.headersSent == (old(res.headersSent) || chunks != [])
    ensures res.written == old(res.written) + chunks
    ensures res.statusCode == old(res.statusCode) && res.headers == old(res.headers)
  {
    var i := 0;
    while i < |chunks|
      invariant 0 <= i <= |chunks|
      invariant res.Valid() && !res.finished && res.headersSent == (old(res.headersSent) || i > 0)
      invariant res.statusCode == old(res.statusCode) && res.headers == old(res.headers)
      invariant res.written == old(res.written) + chunks[..i]
    {
      var w := res.Write(chunks[i]);
      assert chunks[..i + 1] == chunks[..i] + [chunks[i]];
      i := i + 1;
    }
    assert chunks[..i] == chunks;
  }

  /**
   * handleStreamingEdit: phase one commits 200 and the event-stream headers
   * before the handler runs; phase two relays the chunks in order, or writes
   * one error frame, and ends.
   */
  method HandleStreamingEdit(config: ServerConfig, payload: Json, host: Host, lib: Platform, res: ServerResponse)
    returns (trace: seq<Effect>)
    requires res.Valid() && !res.headersSent
    modifies res
    ensures res.Valid() && res.Shows(StreamingReply(config, payload, host, lib))
    ensures trace == StreamingReply(config, payload, host, lib).trace
  {
    var ok := res.WriteHead(200, EventStreamHeaders);
    var o := HandleEditStream(config, payload, host);
    trace := o.trace;
    if o.result.Success? {
      Relay(o.result.value, res);
    } else {
      var w := res.Write(ErrorFrame(o.result.error, lib));
    }
    res.End(None);
  }

  /** routeRequest: answers the request, or reports that an exception escaped before anything was sent. */
  method RouteRequest(config: ServerConfig, req: IncomingRequest, host: Host, lib: Platform, res: ServerResponse)
    returns (thrown: bool, trace: seq<Effect>)
    requires res.Valid() && !res.headersSent
    modifies res
    ensures res.Valid()
    ensures thrown <==> Route(req, lib).Unhandled?
    ensures thrown ==> unchanged(res) && trace == []
    ensures !thrown ==> res.Shows(Respond(config, req, host, lib)) && trace == Respond(config, req, host, lib).trace
  {
    if req.url.None? || req.url.value == "" {
      SendJson(res, 400, ErrorBody("Invalid request"), lib);
      return false, [];
    }
    var pathname := lib.pathnameOf(req.url.value);
    if pathname.None? {
      return true, [];
    }
    if req.verb == "POST" && pathname.value == "/edit_file" {
      var body := ReadRequestBody(req.body);
      if body.Failure? {
        return true, [];
      }
      var parsed := lib.parseJson(body.value);
      if parsed.None? {
        SendJson(res, 400, ErrorBody("Malformed JSON body"), lib);
        return false, [];
      }
      var payload := parsed.value;
      if payload.JNull? {
        return true, [];
      }
      if StreamRequested(payload) {
        trace := HandleStreamingEdit(config, payload, host, lib, res);
      } else {
        trace := HandleStandardEdit(config, payload, host, lib, res);
      }
      return false, trace;
    }
    if req.verb == "GET" && pathname.value == "/health" {
      SendJson(res, 200, HealthBody, lib);
      return false, [];
    }
    SendJson(res, 404, ErrorBody("Not found"), lib);
    return false, [];
  }

  /** The per-request callback of startServer: an exception escaping routeRequest becomes 500. */
  method HandleRequest(config: ServerConfig, req: IncomingRequest, host: Host, lib: Platform, res: ServerResponse)
    returns (trace: seq<Effect>)
    requires res.Valid() && !res.headersSent
    modifies res
    ensures res.Valid() && res.Shows(Respond(config, req, host, lib))
    ensures trace == Respond(config, req, host, lib).trace
  {
    var thrown;
    thrown, trace := RouteRequest(config, req, host, lib, res);
    if thrown {
      SendJson(res, 500, ErrorBody("Internal server error"), lib);
    }
  }
}
