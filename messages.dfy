/** The messages a ReAct conversation is made of, and the result type of the
    one operation of the graph that can fail (routing). */
module Messages {

  /** Either a value or the error routing raises instead of returning a node. */
  datatype Result<+T, +E> = Ok(value: T) | Err(error: E)

  /** One tool invocation requested by the model: its call identifier, the
      name of the tool and the argument payload (kept as text). */
  datatype ToolCall = ToolCall(id: string, name: string, args: string)

  /** The four kinds of chat message. A system message is only ever built
      to be put in front of the history handed to the model; the other three
      make up the conversation history. */
  datatype Message =
    | System(content: string)
    | Human(id: string, content: string)
    | AI(id: string, content: string, toolCalls: seq<ToolCall>)
    | Tool(id: string, toolCallId: string, name: string, content: string)

  /** What the chat model answers with: always an assistant message. */
  type AIMessage = m: Message | m.AI? witness AI("", "", [])

  /** What the tool node answers with: tool result messages. */
  type ToolMessage = m: Message | m.Tool? witness Tool("", "", "", "")

  /** An assistant message that still asks for at least one tool call. */
  predicate HasToolCalls(m: Message) {
    m.AI? && |m.toolCalls| > 0
  }

  /** The class name of a message, as it appears in the routing error. */
  function KindName(m: Message): string {
    match m
    case System(_) => "SystemMessage"
    case Human(_, _) => "HumanMessage"
    case AI(_, _, _) => "AIMessage"
    case Tool(_, _, _, _) => "ToolMessage"
  }

  function Last(h: seq<Message>): Message
    requires h != []
  {
    h[|h| - 1]
  }
}
