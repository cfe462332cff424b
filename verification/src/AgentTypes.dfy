/** The messages, events and tool outcomes that the agent runtime passes around. */
module AgentTypes {
  import opened Wrappers

  datatype ToolCall = ToolCall(id: string, name: string, arguments: string)

  datatype Block =
    | Text(text: string)
    | Thinking(thinking: string)
    | Call(call: ToolCall)

  datatype StopReason = Stop | Length | ToolUse | Error | Aborted

  datatype AssistantMessage = AssistantMessage(
    content: seq<Block>, stopReason: StopReason, errorMessage: Option<string>)
  {
    /** A reply that ends the run without its tool calls being looked at. */
    predicate Failed() {
      stopReason == Error || stopReason == Aborted
    }

    function ToolCalls(): seq<ToolCall> {
      CallsIn(content)
    }
  }

  function CallsIn(content: seq<Block>): seq<ToolCall> {
    if content == [] then []
    else (if content[0].Call? then [content[0].call] else []) + CallsIn(content[1..])
  }

  datatype ToolOutput = ToolOutput(content: string, details: string)

  /** `Custom` stands for every message type an application adds. */
  datatype Message =
    | User(text: string)
    | Custom(tag: string)
    | Assistant(reply: AssistantMessage)
    | ToolResult(toolCallId: string, toolName: string, output: ToolOutput, isError: bool)
  {
    predicate Plain() {
      User? || Custom?
    }
  }

  /** The reply that stands for an error of the run's executor. */
  function FailureMessage(error: string, aborted: bool): AssistantMessage {
    AssistantMessage([Text("")], if aborted then Aborted else Error, Some(error))
  }

  predicate AllPlain(ms: seq<Message>) {
    forall m :: m in ms ==> m.Plain()
  }

  datatype AgentEvent =
    | AgentStart
    | AgentEnd(messages: seq<Message>)
    | TurnStart
    | TurnEnd(message: Message, toolResults: seq<Message>)
    | MessageStart(message: Message)
    | MessageUpdate(message: Message)
    | MessageEnd(message: Message)
    | ToolStart(toolCallId: string, toolName: string, args: string)
    | ToolUpdate(toolCallId: string, toolName: string, args: string, partial: ToolOutput)
    | ToolEnd(toolCallId: string, toolName: string, result: ToolOutput, isError: bool)

  /** What ties a tool result to the call it answers. */
  datatype Key = Key(id: string, name: string)

  function CallKeys(calls: seq<ToolCall>): (keys: seq<Key>)
    ensures |keys| == |calls|
    ensures forall i :: 0 <= i < |calls| ==> keys[i] == Key(calls[i].id, calls[i].name)
  {
    seq(|calls|, i requires 0 <= i < |calls| => Key(calls[i].id, calls[i].name))
  }

  predicate AllResults(ms: seq<Message>) {
    forall m :: m in ms ==> m.ToolResult?
  }

  function ResultKeys(results: seq<Message>): (keys: seq<Key>)
    requires AllResults(results)
    ensures |keys| == |results|
  {
    seq(|results|, i requires 0 <= i < |results| => Key(results[i].toolCallId, results[i].toolName))
  }
}
