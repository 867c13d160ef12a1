/** The AWS Bedrock client (backend/app/llm/bedrock.py): the Anthropic request body it sends and
    the clean-up it applies to a reply before parsing it as JSON. The runtime call and `json.loads`
    are foreign: the reply text and the parser are given. */
module Bedrock {
  import opened Wrappers
  import opened Text
  import opened LlmBase

  const AnthropicVersion := "bedrock-2023-05-31"
  const MaxTokens: nat := 4096
  const DefaultTemperature: real := 0.7
  const JsonTemperature: real := 0.1
  const Fence := "```"
  const JsonFence := "```json"

  /** The JSON body of an `invoke_model` call. `system` is a key that may be missing. */
  datatype Body = Body(anthropicVersion: string, maxTokens: nat, messages: seq<WireMessage>,
                       temperature: real, system: Option<string>)

  /** The body `generate_response` builds: the converted messages, and a `system` key only for a truthy prompt;
      the system prompt defaults to None and the temperature to 0.7. */
  function RequestBody(messages: seq<Message>, systemPrompt: Option<string> := None,
                       temperature: real := DefaultTemperature): (b: Body)
    ensures b.anthropicVersion == AnthropicVersion && b.maxTokens == MaxTokens && b.temperature == temperature
    ensures |b.messages| == |messages|
    ensures forall i :: 0 <= i < |messages| ==>
              b.messages[i].role == messages[i].role && b.messages[i].content == messages[i].content
    ensures b.system.Some? <==> Truthy(systemPrompt)
    ensures b.system.Some? ==> b.system.value == systemPrompt.value
  {
    Body(AnthropicVersion, MaxTokens, ToWire(messages), temperature,
         if Truthy(systemPrompt) then Some(systemPrompt.value) else None)
  }

  /** `generate_response(messages)` with both defaults: temperature 0.7 and no `system` key. */
  lemma DefaultRequestBody(messages: seq<Message>)
    ensures RequestBody(messages).temperature == 0.7 && RequestBody(messages).system == None
    ensures RequestBody(messages).messages == ToWire(messages)
  {
  }

  /** The instruction `generate_json` appends; `schemaJson` is `json.dumps(schema, indent=2)`. */
  function JsonInstruction(schemaJson: string): (r: string)
    ensures Contains(r, schemaJson)
    ensures EndsWith(r, "\nResponse must be ONLY JSON.")
  {
    ContainsMiddle("\nYou must respond with valid JSON adhering to this schema:\n", schemaJson, "\nResponse must be ONLY JSON.");
    "\nYou must respond with valid JSON adhering to this schema:\n" + schemaJson + "\nResponse must be ONLY JSON."
  }

  /** `(system_prompt or "") + json_instruction`: keeps the caller's prompt in front and embeds the schema. */
  function JsonSystemPrompt(systemPrompt: Option<string>, schemaJson: string): (r: string)
    ensures StartsWith(r, OrEmpty(systemPrompt))
    ensures Contains(r, schemaJson)
    ensures r != ""
  {
    var instruction := JsonInstruction(schemaJson);
    ContainsSuffix(OrEmpty(systemPrompt), instruction);
    ContainsTransitive(OrEmpty(systemPrompt) + instruction, instruction, schemaJson);
    OrEmpty(systemPrompt) + instruction
  }

  /** The body sent in JSON mode: temperature 0.1 and, since the prompt is never empty, always a `system` key. */
  function JsonRequestBody(messages: seq<Message>, systemPrompt: Option<string>, schemaJson: string): (b: Body)
    ensures b.temperature == JsonTemperature
    ensures b.system == Some(JsonSystemPrompt(systemPrompt, schemaJson))
    ensures b.messages == ToWire(messages)
  {
    RequestBody(messages, Some(JsonSystemPrompt(systemPrompt, schemaJson)), JsonTemperature)
  }

  function DropPrefix(s: string, p: string): string {
    if StartsWith(s, p) then s[|p|..] else s
  }

  function DropSuffix(s: string, p: string): string {
    if EndsWith(s, p) then s[..|s| - |p|] else s
  }

  /** The clean-up in `generate_json`, in its order: strip, drop a leading "```json", then a leading "```",
      then a trailing "```". */
  function CleanJsonText(text: string): (r: string)
    ensures |r| <= |Strip(text)|
  {
    DropSuffix(DropPrefix(DropPrefix(Strip(text), JsonFence), Fence), Fence)
  }

  /** The cleaned text is a piece of the stripped reply. */
  lemma CleanIsPieceOfStripped(text: string)
    ensures Contains(Strip(text), CleanJsonText(text))
  {
    var s := Strip(text);
    var a := DropPrefix(s, JsonFence);
    var b := DropPrefix(a, Fence);
    var c := DropSuffix(b, Fence);
    var i := |s| - |a|;
    var j := i + |a| - |b|;
    assert a == s[i..];
    assert b == s[j..];
    assert c == s[j..j + |c|];
    assert OccursAt(s, c, j);
  }

  /** A reply without fences cleans to exactly its stripped form. */
  lemma CleanUnfenced(text: string)
    requires !StartsWith(Strip(text), Fence) && !EndsWith(Strip(text), Fence)
    ensures CleanJsonText(text) == Strip(text)
  {
  }

  /** A reply fenced as a "```json" block cleans to the block's inside, new lines included. */
  lemma CleanJsonFenced(body: string)
    ensures CleanJsonText(JsonFence + "\n" + body + "\n" + Fence) == "\n" + body + "\n"
  {
    var t := JsonFence + "\n" + body + "\n" + Fence;
    StripTrimmed(t);
    assert t[..7] == JsonFence;
    var a := t[7..];
    assert a == "\n" + body + "\n" + Fence;
    assert a[0] == '\n';
    assert !StartsWith(a, Fence);
    assert a[|a| - 3..] == Fence;
  }

  /** A reply fenced as a bare "```" block cleans the same way. */
  lemma CleanPlainFenced(body: string)
    ensures CleanJsonText(Fence + "\n" + body + "\n" + Fence) == "\n" + body + "\n"
  {
    var t := Fence + "\n" + body + "\n" + Fence;
    StripTrimmed(t);
    assert t[3] == '\n';
    assert !StartsWith(t, JsonFence);
    assert t[..3] == Fence;
    var a := t[3..];
    assert a == "\n" + body + "\n" + Fence;
    assert a[|a| - 3..] == Fence;
  }

  /** Why a call failed: the provider raised, or the cleaned reply was not JSON
      (`ValueError("LLM failed to generate valid JSON")`). */
  datatype LlmError = ProviderError(message: string) | InvalidJson

  /** `generate_json` after the provider has answered: `parse` stands for `json.loads` (None: `JSONDecodeError`). */
  function GenerateJson<V>(reply: Result<string, string>, parse: string -> Option<V>): (r: Result<V, LlmError>)
    ensures reply.Failure? ==> r == Failure(ProviderError(reply.error))
    ensures reply.Success? && parse(CleanJsonText(reply.value)).None? ==> r == Failure(InvalidJson)
    ensures r.Success? ==> reply.Success? && parse(CleanJsonText(reply.value)) == Some(r.value)
  {
    match reply
    case Failure(e) => Failure(ProviderError(e))
    case Success(text) =>
      match parse(CleanJsonText(text))
      case Some(v) => Success(v)
      case None => Failure(InvalidJson)
  }

  /** A fenced JSON reply reaches the parser without its fences. */
  lemma GenerateJsonFenced<V>(body: string, parse: string -> Option<V>)
    ensures GenerateJson(Success(JsonFence + "\n" + body + "\n" + Fence), parse)
            == match parse("\n" + body + "\n")
               case Some(v) => Success(v)
               case None => Failure(InvalidJson)
  {
    CleanJsonFenced(body);
  }
}
