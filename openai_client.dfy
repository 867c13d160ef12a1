/** The OpenAI client (backend/app/llm/openai_client.py): the message list it builds by appending,
    the request parameters of text and JSON mode, and the `or ""` fallback on a missing reply.
    The API call and `json.loads` are foreign: the reply and the parser are given. */
module OpenAiClient {
  import opened Wrappers
  import opened LlmBase

  const Model := "gpt-4o"
  const TextTemperature: real := 0.7
  const JsonTemperature: real := 0.2
  const JsonObjectFormat := "json_object"

  /** The arguments of `chat.completions.create`; `responseFormat` is the `type` of `response_format`, if given. */
  datatype ChatRequest = ChatRequest(model: string, messages: seq<WireMessage>, temperature: real,
                                     responseFormat: Option<string>)

  /** The request of `generate_response`. */
  method ResponseRequest(messages: seq<Message>, systemPrompt: Option<string> := None) returns (req: ChatRequest)
    ensures req.model == Model && req.temperature == TextTemperature && req.responseFormat == None
    ensures req.messages == WithSystemPrompt(systemPrompt, messages)
  {
    var formatted := BuildWireMessages(messages, systemPrompt);
    req := ChatRequest(Model, formatted, TextTemperature, None);
  }

  /** The request of `generate_json`: the same message list, temperature 0.2 and the `json_object` format. */
  method JsonRequest(messages: seq<Message>, systemPrompt: Option<string>) returns (req: ChatRequest)
    ensures req.model == Model && req.temperature == JsonTemperature && req.responseFormat == Some(JsonObjectFormat)
    ensures req.messages == WithSystemPrompt(systemPrompt, messages)
  {
    var formatted := BuildWireMessages(messages, systemPrompt);
    req := ChatRequest(Model, formatted, JsonTemperature, Some(JsonObjectFormat));
  }

  /** `response.choices[0].message.content or ""`: a missing reply reads as the empty string. */
  function ReplyText(content: Option<string>): (r: string)
    ensures content.None? ==> r == ""
    ensures content.Some? ==> r == content.value
  {
    OrEmpty(content)
  }

  /** `json.loads(content)` in JSON mode: a missing reply (`TypeError`) or unparsable text is re-raised. */
  function JsonReply<V>(content: Option<string>, parse: string -> Option<V>): (r: Result<V, string>)
    ensures content.None? ==> r.Failure?
    ensures r.Success? <==> content.Some? && parse(content.value).Some?
    ensures r.Success? ==> Some(r.value) == parse(content.value)
  {
    match content
    case None => Failure("TypeError: the JSON object must be str, not NoneType")
    case Some(text) =>
      match parse(text)
      case Some(v) => Success(v)
      case None => Failure("JSONDecodeError")
  }
}
