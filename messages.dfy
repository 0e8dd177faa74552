/** The LangChain message kinds the backend builds and inspects. */
module Messages {

  /** One tool invocation requested by the model. */
  datatype ToolCall = ToolCall(name: string, args: string, id: string)

  /** A chat message. `Ai` carries the tool calls the model requested (empty when
      it answered directly); `Tool` is a tool's output; `Function` and `Chat` stand
      for the framework's other message classes, which the backend never builds. */
  datatype Message =
    | Human(content: string)
    | Ai(content: string, toolCalls: seq<ToolCall>)
    | System(content: string)
    | Tool(content: string, toolCallId: string)
    | Function(content: string, name: string)
    | Chat(content: string, role: string)
  {
    /** `msg.type`. */
    function Type(): string {
      match this
      case Human(_) => "human"
      case Ai(_, _) => "ai"
      case System(_) => "system"
      case Tool(_, _) => "tool"
      case Function(_, _) => "function"
      case Chat(_, _) => "chat"
    }
  }
}
