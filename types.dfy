/** The records the relay exchanges: its inbound payload and reply, the upstream chat-completion wire types, and its configuration. */
module Types {
  import opened Wrappers

  /** A value as JSON.parse produces it (object key order is not modelled). */
  datatype Json =
    | JNull
    | JBool(b: bool)
    | JNumber(n: real)
    | JString(s: string)
    | JArray(items: seq<Json>)
    | JObject(fields: map<string, Json>)

  /** Token counts the upstream service may report. */
  datatype Usage = Usage(promptTokens: Option<int>, completionTokens: Option<int>, totalTokens: Option<int>)

  /** A validated edit request. */
  datatype EditFileRequest = EditFileRequest(targetFile: string, instructions: string, editSnippet: string, stream: Option<bool>)

  /** What a buffered edit returns to the caller. */
  datatype EditFileResponse = EditFileResponse(updatedCode: string, model: string, usage: Option<Usage>)

  datatype ServerConfig = ServerConfig(port: int, apiKey: string, baseUrl: string, model: string)

  datatype Role = System | User | Assistant

  datatype Message = Message(role: Role, content: string)

  datatype CompletionRequest = CompletionRequest(
    model: string,
    messages: seq<Message>,
    stream: Option<bool>,
    temperature: Option<real>,
    maxTokens: Option<int>)

  /** The message of a choice; its content may be absent in what the upstream service sends. */
  datatype ChoiceMessage = ChoiceMessage(role: Role, content: Option<string>)

  datatype Choice = Choice(index: int, finishReason: Option<string>, message: Option<ChoiceMessage>)

  datatype CompletionResponse = CompletionResponse(id: string, model: string, choices: seq<Choice>, usage: Option<Usage>)

  /** An optional numeric property: JSON.stringify leaves out a key whose value is undefined. */
  function NumberField(key: string, v: Option<int>): map<string, Json>
  {
    if v.Some? then map[key := JNumber(v.value as real)] else map[]
  }

  function UsageToJson(u: Usage): Json
  {
    JObject(NumberField("prompt_tokens", u.promptTokens)
            + NumberField("completion_tokens", u.completionTokens)
            + NumberField("total_tokens", u.totalTokens))
  }

  /** The object handed to JSON.stringify for a successful buffered edit. */
  function ResponseToJson(r: EditFileResponse): (j: Json)
    ensures j.JObject? && "updatedCode" in j.fields && j.fields["updatedCode"] == JString(r.updatedCode)
    ensures "model" in j.fields && j.fields["model"] == JString(r.model)
    ensures "usage" in j.fields <==> r.usage.Some?
    ensures r.usage.Some? ==> j.fields["usage"] == UsageToJson(r.usage.value)
    ensures j.fields.Keys == {"updatedCode", "model"} + (if r.usage.Some? then {"usage"} else {})
  {
    var base := map["updatedCode" := JString(r.updatedCode), "model" := JString(r.model)];
    JObject(if r.usage.Some? then base["usage" := UsageToJson(r.usage.value)] else base)
  }
}
