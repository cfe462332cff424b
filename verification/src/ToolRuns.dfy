/** What one tool call comes to: preparation, execution and the hooks around them. */
module ToolRuns {
  import opened AgentTypes
  import opened Lists
  import opened Wrappers

  /** One execution of a tool: the partial results it sends, then its result or what it throws. */
  datatype ToolRun = ToolRun(updates: seq<ToolOutput>, outcome: Result<ToolOutput>)

  datatype Tool = Tool(
    name: string,
    prepareArguments: Option<string -> Result<string>>,
    validate: string -> Result<string>,
    execute: (string, string, seq<Message>) -> ToolRun)

  /** What `beforeToolCall` does: it may change the arguments it is shown, block, or throw. */
  datatype Verdict = Allow(args: string) | Block(reason: string) | HookThrew(error: string)

  datatype Override = Override(content: Option<string>, details: Option<string>, isError: Option<bool>)

  datatype Config = Config(
    sequential: bool,
    tools: seq<Tool>,
    before: Option<(AssistantMessage, ToolCall, string, seq<Message>) -> Verdict>,
    after: Option<(AssistantMessage, ToolCall, string, ToolOutput, bool, seq<Message>) -> Option<Override>>)

  datatype Preparation =
    | Immediate(result: ToolOutput, isError: bool)
    | Prepared(call: ToolCall, tool: Tool, args: string)

  function ErrorOutput(message: string): ToolOutput {
    ToolOutput(message, "{}")
  }

  function FindTool(tools: seq<Tool>, name: string): Option<Tool> {
    if tools == [] then None
    else if tools[0].name == name then Some(tools[0])
    else FindTool(tools[1..], name)
  }

  predicate FirstOfName(tools: seq<Tool>, i: nat, name: string) {
    i < |tools| && tools[i].name == name && forall j :: 0 <= j < i ==> tools[j].name != name
  }

  /** The tool found for a name is the first of that name, if there is one. */
  lemma {:induction false} FindsFirst(tools: seq<Tool>, name: string)
    ensures forall i: nat :: FirstOfName(tools, i, name) ==> FindTool(tools, name) == Some(tools[i])
    ensures FindTool(tools, name).Some? ==> exists i: nat :: FirstOfName(tools, i, name)
    ensures FindTool(tools, name).None? ==> forall tool <- tools :: tool.name != name
  {
    if tools != [] && tools[0].name != name {
      FindsFirst(tools[1..], name);
      forall i: nat | FirstOfName(tools, i, name) ensures FindTool(tools, name) == Some(tools[i]) {
        assert FirstOfName(tools[1..], i - 1, name) by {
          assert forall j :: 0 <= j < i - 1 ==> tools[1..][j] == tools[j + 1];
        }
      }
      if FindTool(tools, name).Some? {
        var i: nat :| FirstOfName(tools[1..], i, name);
        assert forall j :: 0 < j < i + 1 ==> tools[j] == tools[1..][j - 1];
        assert FirstOfName(tools, i + 1, name);
      }
    } else if tools != [] {
      assert FirstOfName(tools, 0, name);
    }
  }

  function PreparedArguments(tool: Tool, call: ToolCall): Result<string> {
    match tool.prepareArguments
    case None => Ok(call.arguments)
    case Some(prepare) => prepare(call.arguments)
  }

  function ResultMessage(call: ToolCall, output: ToolOutput, isError: bool): Message {
    ToolResult(call.id, call.name, output, isError)
  }

  /** Everything that the tool calls of one reply are prepared and finished against. */
  datatype Scene = Scene(config: Config, context: seq<Message>, reply: AssistantMessage) {

    function Prepare(call: ToolCall): (p: Preparation)
      ensures p.Prepared? ==> p.call == call
    {
      match FindTool(config.tools, call.name)
      case None => Immediate(ErrorOutput("Tool " + call.name + " not found"), true)
      case Some(tool) =>
        match PreparedArguments(tool, call)
        case Err(e) => Immediate(ErrorOutput(e), true)
        case Ok(prepared) =>
          match tool.validate(prepared)
          case Err(e) => Immediate(ErrorOutput(e), true)
          case Ok(args) =>
            match config.before
            case None => Prepared(call, tool, args)
            case Some(hook) =>
              match hook(reply, call, args, context)
              case Allow(args') => Prepared(call, tool, args')
              case Block(reason) =>
                Immediate(ErrorOutput(if reason == "" then "Tool execution was blocked" else reason), true)
              case HookThrew(e) => Immediate(ErrorOutput(e), true)
    }

    predicate Runs(call: ToolCall) {
      Prepare(call).Prepared?
    }

    function Execution(call: ToolCall): ToolRun
      requires Runs(call)
    {
      var p := Prepare(call);
      p.tool.execute(call.id, p.args, context)
    }

    /** The override that `afterToolCall` gives for an execution's outcome, if it gives one. */
    function OverrideOf(call: ToolCall, args: string, output: ToolOutput, isError: bool): Option<Override> {
      match config.after
      case None => None
      case Some(hook) => hook(reply, call, args, output, isError, context)
    }

    /** The execution's outcome with the fields that `afterToolCall` provides put over it. */
    function Finalized(call: ToolCall, args: string, output: ToolOutput, isError: bool): (r: Message)
      ensures r.ToolResult? && r.toolCallId == call.id && r.toolName == call.name
      ensures OverrideOf(call, args, output, isError).None? ==> r.output == output && r.isError == isError
      ensures var o := OverrideOf(call, args, output, isError);
        o.Some? ==>
          && Some(r.output.content) == (if o.value.content.Some? then o.value.content else Some(output.content))
          && Some(r.output.details) == (if o.value.details.Some? then o.value.details else Some(output.details))
          && Some(r.isError) == if o.value.isError.Some? then o.value.isError else Some(isError)
    {
      match OverrideOf(call, args, output, isError)
      case None => ResultMessage(call, output, isError)
      case Some(o) =>
        ResultMessage(call,
          ToolOutput(if o.content.Some? then o.content.value else output.content,
                     if o.details.Some? then o.details.value else output.details),
          if o.isError.Some? then o.isError.value else isError)
    }

    /** The tool result that `call` must get. */
    function Outcome(call: ToolCall): (r: Message)
      ensures r.ToolResult? && r.toolCallId == call.id && r.toolName == call.name
    {
      match Prepare(call)
      case Immediate(result, isError) => ResultMessage(call, result, isError)
      case Prepared(_, _, args) =>
        match Execution(call).outcome
        case Ok(result) => Finalized(call, args, result, false)
        case Err(e) => Finalized(call, args, ErrorOutput(e), true)
    }

    // -------------------------------------------------------------- Which calls run

    /** The hook before a call is absent, or lets it run with `args'`. */
    predicate LetsRun(call: ToolCall, args: string, args': string) {
      match config.before
      case None => args' == args
      case Some(hook) => hook(reply, call, args, context) == Allow(args')
    }

    /** The hook before a call blocks it or throws, with this text. */
    predicate Stops(call: ToolCall, args: string, text: string) {
      && config.before.Some?
      && var verdict := config.before.value(reply, call, args, context);
         || verdict == HookThrew(text)
         || (verdict == Block(text) && text != "")
         || (verdict == Block("") && text == "Tool execution was blocked")
    }

    /** The first tool of the call's name takes the call: its arguments, prepared, validate as `args`. */
    predicate Takes(call: ToolCall, i: nat, args: string) {
      && FirstOfName(config.tools, i, call.name)
      && PreparedArguments(config.tools[i], call).Ok?
      && config.tools[i].validate(PreparedArguments(config.tools[i], call).value) == Ok(args)
    }

    /** The first tool of the call's name does not take it: preparing or validating fails with this text. */
    predicate Declines(call: ToolCall, i: nat, text: string) {
      && FirstOfName(config.tools, i, call.name)
      && var given := PreparedArguments(config.tools[i], call);
         given == Err(text) || (given.Ok? && config.tools[i].validate(given.value) == Err(text))
    }

    /** Some step before the execution refuses the call with this text. */
    ghost predicate RefusedWith(call: ToolCall, text: string) {
      || (text == "Tool " + call.name + " not found" && forall tool <- config.tools :: tool.name != call.name)
      || (exists i: nat :: Declines(call, i, text))
      || (exists i: nat, args :: Takes(call, i, args) && Stops(call, args, text))
    }

    /** What preparing a call comes to, by what its first tool and the hook do with it. */
    lemma PreparedBy(call: ToolCall, i: nat)
      requires FirstOfName(config.tools, i, call.name)
      ensures forall args, args' :: Takes(call, i, args) && LetsRun(call, args, args') ==>
                                      Prepare(call) == Prepared(call, config.tools[i], args')
      ensures forall args, text :: Takes(call, i, args) && Stops(call, args, text) ==>
                                     Prepare(call) == Immediate(ErrorOutput(text), true)
      ensures forall text :: Declines(call, i, text) ==> Prepare(call) == Immediate(ErrorOutput(text), true)
      ensures || (exists text :: Declines(call, i, text))
              || (exists args, args' :: Takes(call, i, args) && LetsRun(call, args, args'))
              || (exists args, text :: Takes(call, i, args) && Stops(call, args, text))
    {
      FindsFirst(config.tools, call.name);
      var given := PreparedArguments(config.tools[i], call);
      if given.Err? {
        assert Declines(call, i, given.error);
      } else if config.tools[i].validate(given.value).Err? {
        assert Declines(call, i, config.tools[i].validate(given.value).error);
      } else {
        var args := config.tools[i].validate(given.value).value;
        assert Takes(call, i, args);
        if Prepare(call).Prepared? {
          assert LetsRun(call, args, Prepare(call).args);
        } else {
          assert Stops(call, args, Prepare(call).result.content);
        }
      }
    }

    /** A call runs exactly if a tool has its name, the first such tool takes its arguments, and the
        hook lets it run; it then runs with the arguments the hook leaves. */
    lemma RunsExactlyWhenLet(call: ToolCall)
      ensures Runs(call) <==> exists i: nat, args, args' :: Takes(call, i, args) && LetsRun(call, args, args')
      ensures forall i: nat, args, args' :: Takes(call, i, args) && LetsRun(call, args, args') ==>
                                              Execution(call) == config.tools[i].execute(call.id, args', context)
    {
      forall i: nat | FirstOfName(config.tools, i, call.name)
        ensures forall args, args' :: Takes(call, i, args) && LetsRun(call, args, args') ==>
                                        Prepare(call) == Prepared(call, config.tools[i], args')
      {
        PreparedBy(call, i);
      }
      if Runs(call) {
        FindsFirst(config.tools, call.name);
        var i: nat :| FirstOfName(config.tools, i, call.name);
        PreparedBy(call, i);
      }
    }

    /** The result of a call that runs: what its execution returns, or as an error what it throws, each
        field replaced if the hook after the call provides it. */
    lemma ExecutedOutcome(call: ToolCall, i: nat, args: string, args': string)
      requires Takes(call, i, args) && LetsRun(call, args, args')
      ensures var outcome := config.tools[i].execute(call.id, args', context).outcome;
        var output := if outcome.Ok? then outcome.value else ToolOutput(outcome.error, "{}");
        var given := OverrideOf(call, args', output, outcome.Err?);
        var r := Outcome(call);
        && (given.None? ==> r == ToolResult(call.id, call.name, output, outcome.Err?))
        && (given.Some? ==>
              && r.output.content == (if given.value.content.Some? then given.value.content.value else output.content)
              && r.output.details == (if given.value.details.Some? then given.value.details.value else output.details)
              && r.isError == if given.value.isError.Some? then given.value.isError.value else outcome.Err?)
    {
      PreparedBy(call, i);
    }

    /** Every other call is refused: its result is an error with the text of the step that refused it. */
    lemma RefusedExactlyOtherwise(call: ToolCall)
      ensures !Runs(call) <==> exists text :: RefusedWith(call, text)
      ensures forall text :: RefusedWith(call, text) ==>
                Outcome(call) == ToolResult(call.id, call.name, ToolOutput(text, "{}"), true)
    {
      FindsFirst(config.tools, call.name);
      forall i: nat | FirstOfName(config.tools, i, call.name)
        ensures forall text :: Declines(call, i, text) ==> Prepare(call) == Immediate(ErrorOutput(text), true)
        ensures forall args, text :: Takes(call, i, args) && Stops(call, args, text) ==>
                                       Prepare(call) == Immediate(ErrorOutput(text), true)
      {
        PreparedBy(call, i);
      }
      NamedOrNot(call);
      hide Prepare;
      if FindTool(config.tools, call.name).Some? {
        var i: nat :| FirstOfName(config.tools, i, call.name);
        PreparedBy(call, i);
        if text :| Declines(call, i, text) {
          assert RefusedWith(call, text);
        } else if args, text :| Takes(call, i, args) && Stops(call, args, text) {
          assert RefusedWith(call, text);
        }
      } else {
        assert RefusedWith(call, "Tool " + call.name + " not found");
      }
    }

    lemma NamedOrNot(call: ToolCall)
      ensures (forall tool <- config.tools :: tool.name != call.name) ==>
                Prepare(call) == Immediate(ErrorOutput("Tool " + call.name + " not found"), true)
    {
      FindsFirst(config.tools, call.name);
    }

    // -------------------------------------------------------------- Lists of calls

    /** One result per call, in source order. */
    function InOrder(calls: seq<ToolCall>): seq<Message> {
      Map(Outcome, calls)
    }

    function Runnable(calls: seq<ToolCall>): seq<ToolCall> {
      Filter(Runs, calls)
    }

    function Refused(calls: seq<ToolCall>): seq<ToolCall> {
      Reject(Runs, calls)
    }

    /** The order in which concurrent execution returns its results: the calls that never ran,
        then the calls that did, each in source order. */
    function RefusedFirst(calls: seq<ToolCall>): seq<Message> {
      InOrder(Refused(calls)) + InOrder(Runnable(calls))
    }

    /** Concurrent execution returns the same results as sequential execution, in some order. */
    lemma ConcurrentIsPermutation(calls: seq<ToolCall>)
      ensures multiset(RefusedFirst(calls)) == multiset(InOrder(calls))
      ensures |RefusedFirst(calls)| == |calls|
    {
      MapSplitIsPermutation(Outcome, Runs, calls);
      MapConcat(Outcome, Refused(calls), Runnable(calls));
      SplitIsPermutation(Runs, calls);
    }

    /** When no refused call follows one that runs, concurrent execution keeps the source order,
        whether or not ids repeat. */
    lemma ConcurrentKeepsSourceOrderIf(calls: seq<ToolCall>)
      requires forall i, j :: 0 <= i < j < |calls| && Runs(calls[i]) ==> Runs(calls[j])
      ensures RefusedFirst(calls) == InOrder(calls)
    {
      MapConcat(Outcome, Refused(calls), Runnable(calls));
      SplitKeepsOrder(Runs, calls);
    }

    /** For replies whose call ids are distinct, concurrent execution keeps the source order
        exactly when no refused call follows one that runs. */
    lemma ConcurrentKeepsSourceOrder(calls: seq<ToolCall>)
      requires forall i, j :: 0 <= i < j < |calls| ==> calls[i].id != calls[j].id
      ensures RefusedFirst(calls) == InOrder(calls) <==>
              forall i, j :: 0 <= i < j < |calls| && Runs(calls[i]) ==> Runs(calls[j])
    {
      MapConcat(Outcome, Refused(calls), Runnable(calls));
      forall i, j | 0 <= i < |calls| && 0 <= j < |calls| && Outcome(calls[i]) == Outcome(calls[j])
        ensures calls[i] == calls[j]
      {
        assert calls[i].id == calls[j].id;
      }
      MapSplitKeepsOrder(Outcome, Runs, calls);
    }
  }

  /** The results that the tool calls of a reply come to. */
  function ToolResults(scene: Scene): seq<Message> {
    if scene.config.sequential then scene.InOrder(scene.reply.ToolCalls())
    else scene.RefusedFirst(scene.reply.ToolCalls())
  }

  /** The documented source order fails for the code: of a call that runs and a later call to a
      tool that does not exist, concurrent execution reports the later one first. */
  lemma SourceOrderFails(scene: Scene, ran: ToolCall, absent: ToolCall)
    requires scene.Runs(ran) && FindTool(scene.config.tools, absent.name).None? && ran.id != absent.id
    ensures scene.RefusedFirst([ran, absent]) == [scene.Outcome(absent), scene.Outcome(ran)]
    ensures scene.RefusedFirst([ran, absent]) != scene.InOrder([ran, absent])
  {
    SplitPair(scene.Runs, ran, absent);
    assert scene.InOrder([ran, absent])[0] == scene.Outcome(ran);
  }
}
