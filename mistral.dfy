/** The Mistral client (backend/app/llm/mistral.py): the chat message lists it builds by appending in
    text and JSON mode, and the request parameters of each. The SDK call is foreign. */
module MistralClient {
  import opened Wrappers
  import opened Text
  import opened LlmBase

  const DefaultModelId := "mistral-large-latest"
  const DefaultTemperature: real := 0.7
  const JsonTemperature: real := 0.1
  const JsonObjectFormat := "json_object"

  /** The arguments of `chat.complete`. */
  datatype ChatRequest = ChatRequest(model: string, messages: seq<WireMessage>, temperature: real,
                                     responseFormat: Option<string>)

  /** The request of `generate_response`; the system prompt defaults to None and the temperature to 0.7. */
  method ResponseRequest(modelId: string, messages: seq<Message>, systemPrompt: Option<string> := None,
                         temperature: real := DefaultTemperature)
    returns (req: ChatRequest)
    ensures req.model == modelId && req.temperature == temperature && req.responseFormat == None
    ensures req.messages == WithSystemPrompt(systemPrompt, messages)
  {
    var chat := BuildWireMessages(messages, systemPrompt);
    req := ChatRequest(modelId, chat, temperature, None);
  }

  /** `generate_response(messages)` with both defaults: temperature 0.7 and no system entry. */
  method DefaultResponseRequest(modelId: string, messages: seq<Message>) returns (req: ChatRequest)
    ensures req.temperature == 0.7 && req.responseFormat == None
    ensures req.messages == ToWire(messages)
  {
    req := ResponseRequest(modelId, messages);
  }

  /** `(system_prompt or "") + json_instruction`; `schemaJson` is `json.dumps(schema, indent=2)`. */
  function JsonSystemPrompt(systemPrompt: Option<string>, schemaJson: string): (r: string)
    ensures StartsWith(r, OrEmpty(systemPrompt))
    ensures Contains(r, schemaJson)
    ensures Truthy(Some(r))
  {
    var instruction := "\nYou must respond with valid JSON adhering to this schema:\n" + schemaJson;
    ContainsSuffix("\nYou must respond with valid JSON adhering to this schema:\n", schemaJson);
    ContainsSuffix(OrEmpty(systemPrompt), instruction);
    ContainsTransitive(OrEmpty(systemPrompt) + instruction, instruction, schemaJson);
    OrEmpty(systemPrompt) + instruction
  }

  /** The request of `generate_json`: the augmented prompt, temperature 0.1 and the `json_object` format. */
  method JsonRequest(modelId: string, messages: seq<Message>, systemPrompt: Option<string>, schemaJson: string)
    returns (req: ChatRequest)
    ensures req.model == modelId && req.temperature == JsonTemperature && req.responseFormat == Some(JsonObjectFormat)
    ensures req.messages == WithSystemPrompt(Some(JsonSystemPrompt(systemPrompt, schemaJson)), messages)
  {
    var chat := BuildWireMessages(messages, Some(JsonSystemPrompt(systemPrompt, schemaJson)));
    req := ChatRequest(modelId, chat, JsonTemperature, Some(JsonObjectFormat));
  }

  /** In JSON mode the system entry is always there: the list is one longer than the conversation and
      starts with the augmented prompt. */
  lemma JsonMessagesAlwaysHaveSystem(messages: seq<Message>, systemPrompt: Option<string>, schemaJson: string)
    ensures var full := JsonSystemPrompt(systemPrompt, schemaJson);
            var r := WithSystemPrompt(Some(full), messages);
            |r| == |messages| + 1 && r[0] == WireMessage("system", full) && r[1..] == ToWire(messages)
  {
    WithSystemPromptShape(Some(JsonSystemPrompt(systemPrompt, schemaJson)), messages);
  }
}
