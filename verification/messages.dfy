/** The chat message kinds that flow between the user, the model and the tools. */
module Messages {

  /** A tool invocation requested by the model: tool name, arguments and call identifier. */
  datatype ToolCall = ToolCall(name: string, args: string, id: string)

  datatype Message =
    | SystemMessage(content: string)
    | HumanMessage(content: string)
    | AIMessage(content: string, toolCalls: seq<ToolCall>)
    | ToolMessage(content: string, name: string, toolCallId: string)
}
