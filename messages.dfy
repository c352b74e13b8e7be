/**
 * Chat messages exchanged with the model, and `create_instruction`
 * (src/scouter/llmcore/messages.py).
 */
module Messages {
  import opened Wrappers

  /** A tool call requested by the model: its id, the tool's name and the raw JSON text of its arguments. */
  datatype ToolCallRequest = ToolCallRequest(id: string, name: string, arguments: string)

  /** A chat message; `AssistantMessage` is the model's own reply, with the tool calls it requests. */
  datatype Message =
    | SystemMessage(content: string)
    | UserMessage(content: string)
    | AssistantMessage(text: Option<string>, toolCalls: seq<ToolCallRequest>)
    | ToolMessage(content: string, toolCallId: string)

  /**
   * The instruction messages for a system and a user prompt: a system message
   * iff the system prompt is non-empty, a user message iff the user prompt is
   * non-empty, system first.
   */
  function Instruction(systemPrompt: string, userPrompt: string): (r: seq<Message>)
    ensures |r| == (if systemPrompt != "" then 1 else 0) + (if userPrompt != "" then 1 else 0)
    ensures |r| <= 2
    ensures SystemMessage(systemPrompt) in r <==> systemPrompt != ""
    ensures UserMessage(userPrompt) in r <==> userPrompt != ""
    ensures systemPrompt != "" ==> r[0] == SystemMessage(systemPrompt)
    ensures userPrompt != "" ==> r[|r| - 1] == UserMessage(userPrompt)
    ensures forall m :: m in r ==> m == SystemMessage(systemPrompt) || m == UserMessage(userPrompt)
  {
    (if systemPrompt != "" then [SystemMessage(systemPrompt)] else [])
    + (if userPrompt != "" then [UserMessage(userPrompt)] else [])
  }

  /** `create_instruction`: builds the list by two conditional appends. */
  method CreateInstruction(systemPrompt: string, userPrompt: string) returns (messages: seq<Message>)
    ensures messages == Instruction(systemPrompt, userPrompt)
  {
    messages := [];
    if systemPrompt != "" {
      messages := messages + [SystemMessage(systemPrompt)];
    }
    if userPrompt != "" {
      messages := messages + [UserMessage(userPrompt)];
    }
  }
}
