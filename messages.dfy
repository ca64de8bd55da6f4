/** Chat messages as the retry engine handles them: a type tag ("ai",
    "human", ...), text content, the tool calls an AI message requests, an
    optional id, and the `is_error` flag validators put in
    `additional_kwargs`. */
module Messages {
  import opened Wrappers
  import opened JsonValue

  datatype MessageType = AI | Human | System | Tool

  datatype ToolCall = ToolCall(name: string, args: Json, id: Option<string>)

  datatype Message = Message(
    msgType: MessageType,
    content: string,
    toolCalls: seq<ToolCall>,
    id: Option<string>,
    isError: bool)

  /** `AIMessage(content=..., tool_calls=...)` with no id yet. */
  function AIMessage(content: string, toolCalls: seq<ToolCall>): Message {
    Message(AI, content, toolCalls, None, false)
  }
}
