/**
 * The upstream client: one POST to `{baseUrl}/chat/completions` per call, with
 * the bearer key and the optional identification headers, in buffered or
 * streamed mode. `fetch`, `response.json()` and process.env are given as the
 * Upstream capability.
 */
module Client {
  import opened Wrappers
  import opened Types
  import Text
  import Config

  const CompletionsPath: string := "chat/completions"

  datatype HttpRequest = HttpRequest(verb: string, url: string, headers: map<string, string>, body: CompletionRequest)

  /** What fetch resolves to: the status and the body as chunks, or no body at all. */
  datatype Reply = Reply(status: nat, body: Option<seq<string>>)

  /** The effects the client depends on: the environment snapshot, fetch, and the JSON decoding of a completion. */
  datatype Upstream = Upstream(
    env: map<string, string>,
    fetch: HttpRequest -> Result<Reply, string>,
    decodeCompletion: string -> Result<CompletionResponse, string>)

  /** One upstream call: the request that was sent and what came of it. */
  datatype Call<T> = Call(sent: HttpRequest, result: Result<T, string>)

  /** response.ok */
  predicate IsOk(reply: Reply)
  {
    200 <= reply.status <= 299
  }

  /** response.text(): the body's chunks in order, or "" for a response without a body. */
  function BodyText(reply: Reply): string
  {
    if reply.body.Some? then Text.Concat(reply.body.value) else ""
  }

  /** `process.env[key]` is truthy: set and not empty. */
  predicate EnvSet(env: map<string, string>, key: string)
  {
    key in env && env[key] != ""
  }

  /** The base used for joining: the configured URL with a '/' added when it has none. */
  function JoinBase(baseUrl: string): (b: string)
    ensures Text.EndsWithSlash(b)
    ensures Text.EndsWithSlash(baseUrl) ==> b == baseUrl
    ensures !Text.EndsWithSlash(baseUrl) ==> b == baseUrl + "/"
  {
    if Text.EndsWithSlash(baseUrl) then baseUrl else baseUrl + "/"
  }

  /** No '?' or '#': a serialised URL with neither query nor fragment. */
  predicate PlainUrl(s: string)
  {
    forall i :: 0 <= i < |s| ==> s[i] != '?' && s[i] != '#'
  }

  /** A prefix of a plain URL is plain. */
  lemma PlainPrefix(a: string, b: string)
    requires a <= b && PlainUrl(b)
    ensures PlainUrl(a)
  {
    assert forall i :: 0 <= i < |a| ==> a[i] == b[i];
  }

  /** Two plain pieces make a plain string. */
  lemma PlainAppend(a: string, b: string)
    requires PlainUrl(a) && PlainUrl(b)
    ensures PlainUrl(a + b)
  {
    assert forall i :: |a| <= i < |a + b| ==> (a + b)[i] == b[i - |a|];
  }

  /** The completions path has no '?' or '#'. */
  lemma PathIsPlain()
    ensures PlainUrl(CompletionsPath)
  {
  }

  /** The part of a serialised URL before its query and fragment. */
  function BeforeQuery(s: string): (r: string)
    ensures r <= s
    ensures PlainUrl(r)
    ensures PlainUrl(s) ==> r == s
    ensures r == s || (|r| < |s| && (s[|r|] == '?' || s[|r|] == '#'))
  {
    if s == [] || s[0] == '?' || s[0] == '#' then []
    else
      var r := [s[0]] + BeforeQuery(s[1..]);
      assert forall i :: 1 <= i < |r| ==> r[i] == r[1..][i - 1];
      assert s == [s[0]] + s[1..];
      r
  }

  /** Everything up to and including the last '/'. */
  function Directory(s: string): (r: string)
    ensures r <= s
    ensures Text.EndsWithSlash(s) ==> r == s
    ensures r == [] || Text.EndsWithSlash(r)
    ensures forall i :: |r| <= i < |s| ==> s[i] != '/'
  {
    if s == [] || s[|s| - 1] == '/' then s else Directory(s[..|s| - 1])
  }

  /**
   * WHATWG resolution of a path-relative reference (no scheme, no leading '/',
   * no '.' segments) against a serialised hierarchical URL: the base's query
   * and fragment are dropped and its last path segment is replaced.
   */
  function ResolvePathRelative(rel: string, base: string): string
  {
    Directory(BeforeQuery(base)) + rel
  }

  /** `new URL('chat/completions', base)` as a string. */
  function Endpoint(baseUrl: string): (e: string)
    ensures PlainUrl(e)
    ensures |CompletionsPath| <= |e| && e[|e| - |CompletionsPath|..] == CompletionsPath
    ensures var dir := e[..|e| - |CompletionsPath|];
      dir <= JoinBase(baseUrl) && (dir == [] || Text.EndsWithSlash(dir))
    ensures var dir := e[..|e| - |CompletionsPath|]; var q := BeforeQuery(JoinBase(baseUrl));
      dir <= q && forall i :: |dir| <= i < |q| ==> q[i] != '/'
  {
    var plain := BeforeQuery(JoinBase(baseUrl));
    var dir := Directory(plain);
    PlainPrefix(dir, plain);
    PathIsPlain();
    PlainAppend(dir, CompletionsPath);
    var e := ResolvePathRelative(CompletionsPath, JoinBase(baseUrl));
    assert e == dir + CompletionsPath;
    assert e[..|dir|] == dir && e[|dir|..] == CompletionsPath;
    e
  }

  /** For a base without query or fragment the path is appended; a trailing slash is never doubled. */
  lemma EndpointAppendsPath(baseUrl: string)
    requires PlainUrl(baseUrl)
    ensures Endpoint(baseUrl) == JoinBase(baseUrl) + CompletionsPath
    ensures !Text.EndsWithSlash(baseUrl) ==> Endpoint(baseUrl) == baseUrl + "/" + CompletionsPath
    ensures Text.EndsWithSlash(baseUrl) ==> Endpoint(baseUrl) == baseUrl + CompletionsPath
  {
    var b := JoinBase(baseUrl);
    if !Text.EndsWithSlash(baseUrl) {
      PlainAppend(baseUrl, "/");
    }
    assert BeforeQuery(b) == b;
    assert Directory(b) == b;
    assert Endpoint(baseUrl) == b + CompletionsPath;

  }

  /** Conversely, a base with a query or fragment never yields the base plus the path: the query and fragment are dropped. */
  lemma EndpointDropsQuery(baseUrl: string)
    requires !PlainUrl(baseUrl)
    ensures Endpoint(baseUrl) != JoinBase(baseUrl) + CompletionsPath
    ensures Endpoint(baseUrl) != baseUrl + "/" + CompletionsPath
    ensures Endpoint(baseUrl) != baseUrl + CompletionsPath
  {
    var i :| 0 <= i < |baseUrl| && (baseUrl[i] == '?' || baseUrl[i] == '#');
    assert (JoinBase(baseUrl) + CompletionsPath)[i] == baseUrl[i];
    assert (baseUrl + "/" + CompletionsPath)[i] == baseUrl[i];
    assert (baseUrl + CompletionsPath)[i] == baseUrl[i];
  }

  /** `{ ...request, stream: true }`. */
  function ForceStream(request: CompletionRequest): (r: CompletionRequest)
    ensures r.stream == Some(true)
    ensures r.model == request.model && r.messages == request.messages
    ensures r.temperature == request.temperature && r.maxTokens == request.maxTokens
  {
    request.(stream := Some(true))
  }

  /** The override changes a request exactly when it did not already ask for streaming. */
  lemma ForceStreamIsIdentityOnStreaming(request: CompletionRequest)
    ensures ForceStream(request) == request <==> request.stream == Some(true)
  {
  }

  const CompleteErrorPrefix: string := "Morph API error ("
  const StreamErrorPrefix: string := "Morph API stream error ("

  /** The error text complete() throws for a non-OK reply. */
  function CompleteErrorMessage(reply: Reply): string
  {
    CompleteErrorPrefix + Text.NatToDecimal(reply.status) + "): " + BodyText(reply)
  }

  /** The error text stream() throws for a non-OK reply or one without a body. */
  function StreamErrorMessage(reply: Reply): string
  {
    StreamErrorPrefix + Text.NatToDecimal(reply.status) + "): " + BodyText(reply)
  }

  /** A message made of a prefix, the decimal status, "): " and the body text splits back into those parts. */
  lemma {:induction false} StatusAfterPrefix(prefix: string, reply: Reply)
    ensures var m := prefix + Text.NatToDecimal(reply.status) + "): " + BodyText(reply);
      var d := Text.NatToDecimal(reply.status); var k := |prefix|;
      && m[..k] == prefix && m[k..k + |d|] == d && m[k + |d|..] == "): " + BodyText(reply)
      && Text.DecimalValue(m[k..k + |d|]) == reply.status
  {
    var d := Text.NatToDecimal(reply.status);
    var m := prefix + d + "): " + BodyText(reply);
    assert m == prefix + (d + ("): " + BodyText(reply)));
    Text.DecimalRoundTrip(reply.status);
  }

  /** The status code can be read back from either error text: it sits between the prefix and "): ". */
  lemma ErrorMessagesCarryStatus(reply: Reply)
    ensures var m := CompleteErrorMessage(reply); var d := Text.NatToDecimal(reply.status); var k := |CompleteErrorPrefix|;
      && m[..k] == CompleteErrorPrefix && m[k..k + |d|] == d && m[k + |d|..] == "): " + BodyText(reply)
      && Text.DecimalValue(m[k..k + |d|]) == reply.status
    ensures var m := StreamErrorMessage(reply); var d := Text.NatToDecimal(reply.status); var k := |StreamErrorPrefix|;
      && m[..k] == StreamErrorPrefix && m[k..k + |d|] == d && m[k + |d|..] == "): " + BodyText(reply)
      && Text.DecimalValue(m[k..k + |d|]) == reply.status
  {
    StatusAfterPrefix(CompleteErrorPrefix, reply);
    StatusAfterPrefix(StreamErrorPrefix, reply);
  }

  /** MorphClient: holds the read-only configuration it was built with. */
  datatype MorphClient = MorphClient(config: ServerConfig) {

    /**
     * The header dictionary: Content-Type and the bearer key always;
     * HTTP-Referer and X-Title exactly when their variables are set and non-empty.
     */
    function Headers(env: map<string, string>): (h: map<string, string>)
      ensures h.Keys == {"Content-Type", "Authorization"}
                        + (if EnvSet(env, "OPENROUTER_REFERRER") then {"HTTP-Referer"} else {})
                        + (if EnvSet(env, "OPENROUTER_TITLE") then {"X-Title"} else {})
      ensures h["Content-Type"] == "application/json"
      ensures h["Authorization"] == "Bearer " + config.apiKey
      ensures "HTTP-Referer" in h ==> h["HTTP-Referer"] == env["OPENROUTER_REFERRER"]
      ensures "X-Title" in h ==> h["X-Title"] == env["OPENROUTER_TITLE"]
    {
      var headers := map["Content-Type" := "application/json", "Authorization" := "Bearer " + config.apiKey];
      var headers := if EnvSet(env, "OPENROUTER_REFERRER") then headers["HTTP-Referer" := env["OPENROUTER_REFERRER"]] else headers;
      if EnvSet(env, "OPENROUTER_TITLE") then headers["X-Title" := env["OPENROUTER_TITLE"]] else headers
    }

    /** The request performRequest hands to fetch. */
    function Request(body: CompletionRequest, env: map<string, string>): (r: HttpRequest)
      ensures r.verb == "POST" && r.body == body
      ensures r.url == Endpoint(config.baseUrl) && PlainUrl(r.url)
      ensures r.headers == Headers(env) && r.headers["Authorization"] == "Bearer " + config.apiKey
    {
      HttpRequest("POST", Endpoint(config.baseUrl), Headers(env), body)
    }

    /**
     * complete(): sends the request as it is; a rejected fetch and a non-OK
     * status are errors; an OK body is decoded and returned unchecked.
     */
    function Complete(request: CompletionRequest, up: Upstream): (c: Call<CompletionResponse>)
      ensures c.sent == Request(request, up.env) && c.sent.verb == "POST" && c.sent.body == request
      ensures up.fetch(c.sent).Failure? ==> c.result == Failure(up.fetch(c.sent).error)
      ensures up.fetch(c.sent).Success? && !IsOk(up.fetch(c.sent).value) ==>
        c.result == Failure(CompleteErrorMessage(up.fetch(c.sent).value))
      ensures up.fetch(c.sent).Success? && IsOk(up.fetch(c.sent).value) ==>
        c.result == up.decodeCompletion(BodyText(up.fetch(c.sent).value))
    {
      var sent := Request(request, up.env);
      match up.fetch(sent)
      case Failure(e) => Call(sent, Failure(e))
      case Success(reply) =>
        if !IsOk(reply) then Call(sent, Failure(CompleteErrorMessage(reply)))
        else Call(sent, up.decodeCompletion(BodyText(reply)))
    }

    /**
     * stream(): sends the request with stream forced to true; it yields the
     * body's chunks exactly when the reply is OK and has a body.
     */
    function Stream(request: CompletionRequest, up: Upstream): (c: Call<seq<string>>)
      ensures c.sent == Request(ForceStream(request), up.env) && c.sent.body.stream == Some(true)
      ensures c.result.Success? <==> up.fetch(c.sent).Success? && IsOk(up.fetch(c.sent).value) && up.fetch(c.sent).value.body.Some?
      ensures c.result.Success? ==> c.result.value == up.fetch(c.sent).value.body.value
      ensures up.fetch(c.sent).Failure? ==> c.result == Failure(up.fetch(c.sent).error)
      ensures up.fetch(c.sent).Success? && c.result.Failure? ==> c.result == Failure(StreamErrorMessage(up.fetch(c.sent).value))
    {
      var sent := Request(ForceStream(request), up.env);
      match up.fetch(sent)
      case Failure(e) => Call(sent, Failure(e))
      case Success(reply) =>
        if !IsOk(reply) || reply.body.None? then Call(sent, Failure(StreamErrorMessage(reply)))
        else Call(sent, Success(reply.body.value))
    }
  }

  /** With a resolved configuration whose address has no query or fragment, the endpoint is the address plus "/chat/completions" unless the address keeps a trailing slash. */
  lemma ConfiguredEndpoint(input: Config.PartialConfig, env: map<string, string>,
                           parseUrl: string -> Option<string>, toNumber: string -> Config.JsNumber)
    requires Config.ResolveConfig(input, env, parseUrl, toNumber).Success?
    requires PlainUrl(Config.ResolveConfig(input, env, parseUrl, toNumber).value.baseUrl)
    ensures var b := Config.ResolveConfig(input, env, parseUrl, toNumber).value.baseUrl;
      MorphClient(Config.ResolveConfig(input, env, parseUrl, toNumber).value).Request(CompletionRequest("", [], None, None, None), env).url
        == (if Text.EndsWithSlash(b) then b + CompletionsPath else b + "/" + CompletionsPath)
  {
    EndpointAppendsPath(Config.ResolveConfig(input, env, parseUrl, toNumber).value.baseUrl);
  }
}
