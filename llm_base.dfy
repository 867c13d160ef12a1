/** The message types shared by the LLM clients (backend/app/llm/base.py) and the message
    list every chat provider is sent: an optional system entry, then the conversation. */
module LlmBase {
  import opened Wrappers

  /** `LLMMessage`: one turn of a conversation handed to a client. */
  datatype Message = Message(role: string, content: string)

  /** The `{"role": ..., "content": ...}` dictionary a client puts on the wire. */
  datatype WireMessage = WireMessage(role: string, content: string)

  /** Python truthiness of an `Optional[str]`: present and not empty. */
  predicate Truthy(s: Option<string>) {
    s.Some? && s.value != ""
  }

  /** `(s or "")` */
  function OrEmpty(s: Option<string>): (r: string)
    ensures Truthy(s) ==> r == s.value
    ensures !Truthy(s) ==> r == ""
  {
    if s.Some? then s.value else ""
  }

  /** `{"role": m.role, "content": m.content} for m in messages`: order, roles and contents are kept. */
  function ToWire(messages: seq<Message>): (r: seq<WireMessage>)
    ensures |r| == |messages|
    ensures forall i :: 0 <= i < |r| ==> r[i].role == messages[i].role && r[i].content == messages[i].content
  {
    seq(|messages|, i requires 0 <= i < |messages| => WireMessage(messages[i].role, messages[i].content))
  }

  /** The list a chat provider receives: a system entry when the system prompt is truthy, then the messages. */
  function WithSystemPrompt(systemPrompt: Option<string>, messages: seq<Message>): (r: seq<WireMessage>)
    ensures |r| == |messages| + (if Truthy(systemPrompt) then 1 else 0)
    ensures !Truthy(systemPrompt) ==> r == ToWire(messages)
  {
    (if Truthy(systemPrompt) then [WireMessage("system", systemPrompt.value)] else []) + ToWire(messages)
  }

  /** The list the OpenAI and Mistral clients build by appending (`formatted_messages`, `chat_messages`): a
      system entry when the prompt is truthy, then one entry per message, in order. */
  method BuildWireMessages(messages: seq<Message>, systemPrompt: Option<string>) returns (wire: seq<WireMessage>)
    ensures wire == WithSystemPrompt(systemPrompt, messages)
  {
    wire := [];
    if Truthy(systemPrompt) {
      wire := wire + [WireMessage("system", systemPrompt.value)];
    }
    ghost var head := wire;
    for i := 0 to |messages|
      invariant wire == head + ToWire(messages[..i])
    {
      assert ToWire(messages[..i + 1]) == ToWire(messages[..i]) + [WireMessage(messages[i].role, messages[i].content)];
      wire := wire + [WireMessage(messages[i].role, messages[i].content)];
    }
    assert messages[..|messages|] == messages;
  }

  /** A system entry leads the list exactly when the prompt is truthy, and the rest copies the messages in order. */
  lemma WithSystemPromptShape(systemPrompt: Option<string>, messages: seq<Message>)
    ensures var r := WithSystemPrompt(systemPrompt, messages);
      && |r| == |messages| + (if Truthy(systemPrompt) then 1 else 0)
      && (Truthy(systemPrompt) ==> r[0] == WireMessage("system", systemPrompt.value) && r[1..] == ToWire(messages))
      && (!Truthy(systemPrompt) ==> r == ToWire(messages))
  {
    var r := WithSystemPrompt(systemPrompt, messages);
    if Truthy(systemPrompt) {
      assert r[1..] == ToWire(messages);
    }
  }
}
