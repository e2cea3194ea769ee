/**
 * The request handler: payload validation, the two-message completion request
 * around the wire template, extraction of the buffered result, and the order
 * of the steps (validate, read the file, build, call upstream). The file read
 * and the client's network access are capabilities; every entry point returns
 * the effects it performed, in order, beside its result.
 */
module Handler {
  import opened Wrappers
  import opened Types
  import Text
  import opened Client

  const InvalidPayloadMessage: string := "Invalid payload. Expected object."
  const EmptyCompletionMessage: string := "Morph API returned an empty completion"
  const RequiredFields: seq<string> := ["target_file", "instructions", "editSnippet"]
  const SystemPrompt: string :=
    "You are Morph fast apply. Carefully update the provided code according to the instructions and edit snippet. Return ONLY the full updated file contents with no commentary."

  /** The handler's capabilities: reading a file by its path, and the client's upstream access. */
  datatype Host = Host(readFile: string -> Result<string, string>, upstream: Upstream)

  /** An effect an entry point performs. */
  datatype Effect = ReadFile(path: string) | Fetch(request: HttpRequest)

  /** A result (a value or the message of the thrown error) and the effects performed to reach it. */
  datatype Outcome<T> = Outcome(result: Result<T, string>, trace: seq<Effect>)

  /** `payload && typeof payload === 'object'` for a parsed JSON value: an object or an array. */
  predicate IsObjectLike(p: Json)
  {
    p.JObject? || p.JArray?
  }

  /** `payload[key]` is a string whose trim() is not empty (arrays carry none of the required keys). */
  predicate FieldValid(p: Json, key: string)
  {
    p.JObject? && key in p.fields && p.fields[key].JString? && Text.Trim(p.fields[key].s) != ""
  }

  function FieldError(key: string): string
  {
    "Invalid or missing field: " + key
  }

  /** The string held under key. */
  function Str(p: Json, key: string): string
    requires p.JObject? && key in p.fields && p.fields[key].JString?
  {
    p.fields[key].s
  }

  /**
   * validatePayload, with the validated fields read out: an object or array is
   * required, then target_file, instructions and editSnippet are checked in
   * that order and the first invalid one is named.
   */
  function Validate(p: Json): (r: Result<EditFileRequest, string>)
    ensures !IsObjectLike(p) ==> r == Failure(InvalidPayloadMessage)
    ensures IsObjectLike(p) && !FieldValid(p, "target_file") ==>
      r == Failure(FieldError("target_file"))
    ensures IsObjectLike(p) && FieldValid(p, "target_file") && !FieldValid(p, "instructions") ==>
      r == Failure(FieldError("instructions"))
    ensures IsObjectLike(p) && FieldValid(p, "target_file") && FieldValid(p, "instructions") && !FieldValid(p, "editSnippet") ==>
      r == Failure(FieldError("editSnippet"))
    ensures r.Success? <==> FieldValid(p, "target_file") && FieldValid(p, "instructions") && FieldValid(p, "editSnippet")
    ensures r.Success? ==> (r.value.targetFile == Str(p, "target_file") && r.value.instructions == Str(p, "instructions")
                            && r.value.editSnippet == Str(p, "editSnippet"))
  {
    if !IsObjectLike(p) then Failure(InvalidPayloadMessage)
    else if !FieldValid(p, "target_file") then Failure(FieldError("target_file"))
    else if !FieldValid(p, "instructions") then Failure(FieldError("instructions"))
    else if !FieldValid(p, "editSnippet") then Failure(FieldError("editSnippet"))
    else
      var stream := if "stream" in p.fields && p.fields["stream"].JBool? then Some(p.fields["stream"].b) else None;
      Success(EditFileRequest(Str(p, "target_file"), Str(p, "instructions"), Str(p, "editSnippet"), stream))
  }

  /** The failure Validate reports when the fields before RequiredFields[i] are valid and that one is not. */
  lemma ValidateStopsAt(p: Json, i: nat)
    requires IsObjectLike(p) && i < |RequiredFields|
    requires forall j :: 0 <= j < i ==> FieldValid(p, RequiredFields[j])
    requires !FieldValid(p, RequiredFields[i])
    ensures Validate(p) == Failure(FieldError(RequiredFields[i]))
  {
    if i == 1 {
      assert FieldValid(p, RequiredFields[0]);
    } else if i == 2 {
      assert FieldValid(p, RequiredFields[0]) && FieldValid(p, RequiredFields[1]);
    }
  }

  /** The loop of validatePayload: it stops at the first offending key. */
  method ValidatePayload(p: Json) returns (r: Result<EditFileRequest, string>)
    ensures r == Validate(p)
  {
    if !IsObjectLike(p) {
      return Failure(InvalidPayloadMessage);
    }
    for i := 0 to |RequiredFields|
      invariant forall j :: 0 <= j < i ==> FieldValid(p, RequiredFields[j])
    {
      var key := RequiredFields[i];
      var value: Option<Json> := if p.JObject? && key in p.fields then Some(p.fields[key]) else None;
      if !(value.Some? && value.value.JString?) || Text.Trim(value.value.s) == "" {
        assert !FieldValid(p, key);
        ValidateStopsAt(p, i);
        return Failure(FieldError(key));
      }
    }
    assert FieldValid(p, RequiredFields[0]) && FieldValid(p, RequiredFields[1]) && FieldValid(p, RequiredFields[2]);
    var stream := if "stream" in p.fields && p.fields["stream"].JBool? then Some(p.fields["stream"].b) else None;
    r := Success(EditFileRequest(Str(p, RequiredFields[0]), Str(p, RequiredFields[1]), Str(p, RequiredFields[2]), stream));
  }

  /** A field is rejected exactly when it is missing, not a string, or white space only. */
  lemma FieldValidIffNotBlank(p: Json, key: string)
    ensures FieldValid(p, key) <==>
      p.JObject? && key in p.fields && p.fields[key].JString? && !Text.AllSpace(p.fields[key].s)
  {
    if p.JObject? && key in p.fields && p.fields[key].JString? {
      Text.TrimEmptyIffAllSpace(p.fields[key].s);
    }
  }

  /** The empty object `{}` is rejected, naming target_file. */
  lemma EmptyObjectRejected()
    ensures Validate(JObject(map[])) == Failure("Invalid or missing field: target_file")
  {
    assert !FieldValid(JObject(map[]), "target_file");
    assert FieldError("target_file") == "Invalid or missing field: target_file";
  }

  /** The user message: the file inside <code>, the instructions and the snippet inside <update>. */
  function UserContent(file: string, instructions: string, snippet: string): (c: string)
    ensures |c| == |file| + |instructions| + |snippet| + 37
  {
    "<code>\n" + file + "\n</code>\n<update>\n" + instructions + "\n\n" + snippet + "\n</update>"
  }

  /** Reads a user message back into its three parts, given the lengths of the first two. */
  function SplitUserContent(c: string, fileLength: nat, instructionsLength: nat): (r: Option<(string, string, string)>)
  {
    var b := 7 + fileLength;
    var d := b + 18;
    var e := d + instructionsLength;
    if |c| < e + 12 then None
    else if c[..7] == "<code>\n" && c[b..d] == "\n</code>\n<update>\n" && c[e..e + 2] == "\n\n"
            && c[|c| - 10..] == "\n</update>"
    then Some((c[7..b], c[d..e], c[e + 2..|c| - 10]))
    else None
  }

  /** The template is read back exactly: it loses nothing and adds only its fixed tags. */
  lemma UserContentRoundTrip(file: string, instructions: string, snippet: string)
    ensures SplitUserContent(UserContent(file, instructions, snippet), |file|, |instructions|)
            == Some((file, instructions, snippet))
  {
    var c := UserContent(file, instructions, snippet);
    var b := 7 + |file|;
    var d := b + 18;
    var e := d + |instructions|;
    assert c[..7] == "<code>\n";
    assert c[7..b] == file;
    assert c[b..d] == "\n</code>\n<update>\n";
    assert c[d..e] == instructions;
    assert c[e..e + 2] == "\n\n";
    assert c[e + 2..|c| - 10] == snippet;
    assert c[|c| - 10..] == "\n</update>";
  }

  /** buildCompletionRequest: the configured model, a system then a user message, and the given stream flag. */
  function BuildCompletionRequest(config: ServerConfig, file: string, req: EditFileRequest, stream: bool): (r: CompletionRequest)
    ensures r.model == config.model && r.stream == Some(stream)
    ensures |r.messages| == 2 && r.messages[0].role == System && r.messages[1].role == User
    ensures r.messages[0].content == SystemPrompt
    ensures r.messages[1].content == UserContent(file, req.instructions, req.editSnippet)
    ensures r.temperature.None? && r.maxTokens.None?
  {
    CompletionRequest(config.model,
                      [Message(System, SystemPrompt), Message(User, UserContent(file, req.instructions, req.editSnippet))],
                      Some(stream), None, None)
  }

  /** `completion.choices[0]?.message?.content`. */
  function FirstContent(c: CompletionResponse): (r: Option<string>)
    ensures r.Some? <==> |c.choices| > 0 && c.choices[0].message.Some? && c.choices[0].message.value.content.Some?
    ensures r.Some? ==> r == c.choices[0].message.value.content
  {
    if |c.choices| == 0 || c.choices[0].message.None? then None else c.choices[0].message.value.content
  }

  /**
   * The buffered result: an absent or empty first content is an error;
   * otherwise the content without its trailing white space, with the
   * completion's model and usage.
   */
  function ExtractResult(c: CompletionResponse): (r: Result<EditFileResponse, string>)
    ensures r.Failure? <==> FirstContent(c).None? || FirstContent(c) == Some("")
    ensures r.Failure? ==> r.error == EmptyCompletionMessage
    ensures r.Success? ==> r.value.model == c.model && r.value.usage == c.usage
    ensures r.Success? ==>
      var content := FirstContent(c).value;
      && r.value.updatedCode <= content
      && Text.AllSpace(content[|r.value.updatedCode|..])
      && (r.value.updatedCode == [] || !Text.IsJsSpace(r.value.updatedCode[|r.value.updatedCode| - 1]))
  {
    var message := FirstContent(c);
    if message.None? || message.value == "" then Failure(EmptyCompletionMessage)
    else Success(EditFileResponse(Text.TrimEnd(message.value), c.model, c.usage))
  }

  /** Emptiness is checked before trimming: white-space-only content gives an empty updatedCode. */
  lemma WhitespaceOnlyCompletion(c: CompletionResponse)
    requires FirstContent(c).Some? && FirstContent(c).value != "" && Text.AllSpace(FirstContent(c).value)
    ensures ExtractResult(c) == Success(EditFileResponse("", c.model, c.usage))
  {
    Text.TrimEndOfAllSpace(FirstContent(c).value);
  }

  /** The request sent upstream for a validated payload and the file's content. */
  function UpstreamRequest(config: ServerConfig, req: EditFileRequest, file: string, stream: bool, env: map<string, string>): HttpRequest
  {
    MorphClient(config).Request(BuildCompletionRequest(config, file, req, stream), env)
  }

  /**
   * handleEditRequest: validate, read the file, build with stream false,
   * complete, extract. A validation failure performs no effect; a read
   * failure performs no network call.
   */
  function HandleEditRequest(config: ServerConfig, payload: Json, host: Host): (o: Outcome<EditFileResponse>)
    ensures Validate(payload).Failure? ==> o == Outcome(Failure(Validate(payload).error), [])
    ensures Validate(payload).Success? ==>
      var req := Validate(payload).value;
      host.readFile(req.targetFile).Failure? ==>
        o == Outcome(Failure(host.readFile(req.targetFile).error), [ReadFile(req.targetFile)])
    ensures Validate(payload).Success? ==>
      var req := Validate(payload).value;
      host.readFile(req.targetFile).Success? ==>
        var sent := UpstreamRequest(config, req, host.readFile(req.targetFile).value, false, host.upstream.env);
        && o.trace == [ReadFile(req.targetFile), Fetch(sent)]
        && sent.body.stream == Some(false)
        && (host.upstream.fetch(sent).Failure? ==> o.result == Failure(host.upstream.fetch(sent).error))
        && (host.upstream.fetch(sent).Success? && !IsOk(host.upstream.fetch(sent).value) ==>
              o.result == Failure(CompleteErrorMessage(host.upstream.fetch(sent).value)))
        && (host.upstream.fetch(sent).Success? && IsOk(host.upstream.fetch(sent).value) ==>
              var decoded := host.upstream.decodeCompletion(BodyText(host.upstream.fetch(sent).value));
              o.result == (if decoded.Failure? then Failure(decoded.error) else ExtractResult(decoded.value)))
    ensures o.result.Success? ==> |o.trace| == 2
  {
    match Validate(payload)
    case Failure(e) => Outcome(Failure(e), [])
    case Success(req) =>
      var client := MorphClient(config);
      match host.readFile(req.targetFile)
      case Failure(e) => Outcome(Failure(e), [ReadFile(req.targetFile)])
      case Success(file) =>
        var request := BuildCompletionRequest(config, file, req, false);
        var call := client.Complete(request, host.upstream);
        var trace := [ReadFile(req.targetFile), Fetch(call.sent)];
        match call.result
        case Failure(e) => Outcome(Failure(e), trace)
        case Success(completion) => Outcome(ExtractResult(completion), trace)
  }

  /**
   * handleEditStream: validate, read the file, build with stream true, and
   * hand back the upstream chunks unmodified.
   */
  function HandleEditStream(config: ServerConfig, payload: Json, host: Host): (o: Outcome<seq<string>>)
    ensures Validate(payload).Failure? ==> o == Outcome(Failure(Validate(payload).error), [])
    ensures Validate(payload).Success? ==>
      var req := Validate(payload).value;
      host.readFile(req.targetFile).Failure? ==>
        o == Outcome(Failure(host.readFile(req.targetFile).error), [ReadFile(req.targetFile)])
    ensures Validate(payload).Success? ==>
      var req := Validate(payload).value;
      host.readFile(req.targetFile).Success? ==>
        var sent := UpstreamRequest(config, req, host.readFile(req.targetFile).value, true, host.upstream.env);
        && o.trace == [ReadFile(req.targetFile), Fetch(sent)]
        && sent.body.stream == Some(true)
        && (o.result.Success? <==> host.upstream.fetch(sent).Success? && IsOk(host.upstream.fetch(sent).value)
                                   && host.upstream.fetch(sent).value.body.Some?)
        && (o.result.Success? ==> o.result.value == host.upstream.fetch(sent).value.body.value)
        && (host.upstream.fetch(sent).Failure? ==> o.result == Failure(host.upstream.fetch(sent).error))
        && (host.upstream.fetch(sent).Success? && o.result.Failure? ==>
              o.result == Failure(StreamErrorMessage(host.upstream.fetch(sent).value)))
  {
    match Validate(payload)
    case Failure(e) => Outcome(Failure(e), [])
    case Success(req) =>
      var client := MorphClient(config);
      match host.readFile(req.targetFile)
      case Failure(e) => Outcome(Failure(e), [ReadFile(req.targetFile)])
      case Success(file) =>
        var request := BuildCompletionRequest(config, file, req, true);
        ForceStreamIsIdentityOnStreaming(request);
        var call := client.Stream(request, host.upstream);
        Outcome(call.result, [ReadFile(req.targetFile), Fetch(call.sent)])
  }

  /** Every trace of either entry point is a prefix of "read the target file, then fetch". */
  lemma TracesReadBeforeFetch(config: ServerConfig, payload: Json, host: Host)
    ensures var t := HandleEditRequest(config, payload, host).trace;
      |t| <= 2 && (|t| >= 1 ==> t[0].ReadFile? && t[0].path == Validate(payload).value.targetFile) && (|t| == 2 ==> t[1].Fetch?)
    ensures var t := HandleEditStream(config, payload, host).trace;
      |t| <= 2 && (|t| >= 1 ==> t[0].ReadFile? && t[0].path == Validate(payload).value.targetFile) && (|t| == 2 ==> t[1].Fetch?)
  {
  }
}
