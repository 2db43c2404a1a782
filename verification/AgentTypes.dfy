/** Messages, tool calls and events of an agent run. Timestamps, usage and other metadata are left out. */
module AgentTypes {
  import opened Results
  import CallKeys

  datatype Id = Id(text: string)

  datatype Name = Name(text: string)

  datatype ToolCall = ToolCall(id: Id, name: Name, arguments: seq<CallKeys.Field>)

  datatype StopReason = Stop | Length | ToolUse | Error | Aborted

  datatype AssistantBlock = Prose(text: string) | Call(call: ToolCall)

  datatype AssistantMessage = AssistantMessage(
    content: seq<AssistantBlock>, stopReason: StopReason, errorMessage: Option<string>)

  datatype ResultBlock = TextBlock(text: string) | ImageBlock(data: string)

  datatype ToolResult = ToolResult(content: seq<ResultBlock>, terminate: Option<bool>)

  datatype ToolResultMessage = ToolResultMessage(
    toolCallId: Id, toolName: Name, content: seq<ResultBlock>, isError: bool)

  datatype Message = User(text: string) | Assistant(assistant: AssistantMessage) | ToolResponse(result: ToolResultMessage)

  datatype Event =
    | AgentStart
    | AgentEnd(messages: seq<Message>)
    | TurnStart
    | TurnEnd(message: Message, toolResults: seq<ToolResultMessage>)
    | MessageStart(message: Message)
    | MessageUpdate(message: Message)
    | MessageEnd(message: Message)
    | ToolExecutionStart(id: Id, name: Name)
    | ToolExecutionUpdate(id: Id, name: Name, partial: ToolResult)
    | ToolExecutionEnd(id: Id, name: Name, outcome: ToolResult, isError: bool)

  /** The message that reports an execution which ended like this. */
  function Report(id: Id, name: Name, outcome: ToolResult, isError: bool): ToolResultMessage {
    ToolResultMessage(id, name, outcome.content, isError)
  }

  /** The calls of a message, in the order the model wrote them. */
  function CallsOf(content: seq<AssistantBlock>): seq<ToolCall> {
    if content == [] then []
    else (if content[0].Call? then [content[0].call] else []) + CallsOf(content[1..])
  }

  function Responses(results: seq<ToolResultMessage>): (messages: seq<Message>)
    ensures |messages| == |results|
    ensures forall i | 0 <= i < |results| :: messages[i] == ToolResponse(results[i])
  {
    seq(|results|, i requires 0 <= i < |results| => ToolResponse(results[i]))
  }

  lemma ResponsesSnoc(results: seq<ToolResultMessage>, r: ToolResultMessage)
    ensures Responses(results + [r]) == Responses(results) + [ToolResponse(r)]
  {
  }

  /** One result per call, with that call's id and name, in source order. */
  predicate Answers(calls: seq<ToolCall>, results: seq<ToolResultMessage>) {
    && |results| == |calls|
    && forall i | 0 <= i < |calls| :: results[i].toolCallId == calls[i].id && results[i].toolName == calls[i].name
  }

  predicate Failed(m: AssistantMessage) {
    m.stopReason.Error? || m.stopReason.Aborted?
  }
}
