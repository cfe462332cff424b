/**
 * The protocol of one agent run, as an acceptor over the run's log.
 *
 * A log holds every event the loop emits, together with the loop's two message arrays at
 * that moment, every poll of a queue with what it drained, every request to the model, and
 * the crash that replaces the normal ending when the model stream throws.
 */
module RunProtocol {
  import opened AgentTypes
  import opened Wrappers

  datatype Source = Steering | FollowUp

  datatype Entry =
    | Emit(event: AgentEvent, context: seq<Message>, newMessages: seq<Message>)
    | Poll(source: Source, drained: seq<Message>)
    | Request(messages: seq<Message>)
    | Crash(failure: AssistantMessage)

  type Log = seq<Entry>

  /** The tool calls of `reply`: the first `started` have started, those in `open` have not
      ended, and `done` holds the results reported so far. */
  datatype Work = Work(reply: AssistantMessage, started: nat, done: seq<Message>, open: multiset<Key>)

  datatype Phase =
    | Init(prompts: seq<Message>)
    | Begun(prompts: seq<Message>)
      /** `queue` is still to be injected; `first` says the first poll is still to come. */
    | Injecting(queue: seq<Message>, first: bool)
      /** `queue[0]` has been announced but not ended. */
    | InjectOpen(queue: seq<Message>, first: bool)
    | Asked
    | Streaming
    | Working(work: Work)
      /** `result` is being reported; `announced` says its `message_start` is out. */
    | Reporting(work: Work, result: Message, announced: bool)
    | Failing(reply: AssistantMessage)
    | Settled(tools: bool)
    | Quiet
    | Between(queue: seq<Message>)
    | Stopping
    | Crashed(failure: AssistantMessage)
    | Over(crashed: bool)

  /** `base` is the transcript the run started from, `ended` the messages ended since. */
  datatype Monitor = Monitor(base: seq<Message>, phase: Phase, ended: seq<Message>) {
    function Transcript(): seq<Message> {
      base + ended
    }
  }

  function NextPhase(p: Phase, ev: AgentEvent): Option<Phase> {
    match p
    case Init(ps) => if ev.AgentStart? then Some(Begun(ps)) else None
    case Begun(ps) => if ev.TurnStart? then Some(Injecting(ps, true)) else None
    case Injecting(q, first) =>
      if ev.MessageStart? && q != [] && ev.message == q[0] then Some(InjectOpen(q, first)) else None
    case InjectOpen(q, first) =>
      if ev.MessageEnd? && q != [] && ev.message == q[0] then Some(Injecting(q[1..], first)) else None
    case Asked => if ev.MessageStart? && ev.message.Assistant? then Some(Streaming) else None
    case Streaming =>
      if ev.MessageUpdate? && ev.message.Assistant? then Some(Streaming)
      else if ev.MessageEnd? && ev.message.Assistant? then
        var reply := ev.message.reply;
        Some(if reply.Failed() then Failing(reply) else Working(Work(reply, 0, [], multiset{})))
      else None
    case Working(w) => NextWorking(w, ev)
    case Reporting(w, result, announced) => NextReporting(w, result, announced, ev)
    case Failing(reply) => if ev == TurnEnd(Assistant(reply), []) then Some(Stopping) else None
    case Between(q) => if ev.TurnStart? then Some(Injecting(q, false)) else None
    case Stopping => if ev.AgentEnd? then Some(Over(false)) else None
    case Crashed(f) => if ev == AgentEnd([Assistant(f)]) then Some(Over(true)) else None
    case Settled(_) => None
    case Quiet => None
    case Over(_) => None
  }

  function NextWorking(w: Work, ev: AgentEvent): Option<Phase> {
    var calls := w.reply.ToolCalls();
    match ev
    case ToolStart(id, name, args) =>
      if w.started < |calls| && calls[w.started] == ToolCall(id, name, args) then
        Some(Working(w.(started := w.started + 1, open := w.open + multiset{Key(id, name)})))
      else None
    case ToolUpdate(id, name, _, _) => if Key(id, name) in w.open then Some(Working(w)) else None
    case ToolEnd(id, name, result, isError) =>
      if Key(id, name) in w.open then
        Some(Reporting(w.(open := w.open - multiset{Key(id, name)}), ToolResult(id, name, result, isError), false))
      else None
    case TurnEnd(message, results) =>
      if message == Assistant(w.reply) && results == w.done && w.started == |calls| && w.open == multiset{} then
        Some(Settled(calls != []))
      else None
    case _ => None
  }

  function NextReporting(w: Work, result: Message, announced: bool, ev: AgentEvent): Option<Phase> {
    match ev
    case ToolUpdate(id, name, _, _) =>
      if Key(id, name) in w.open then Some(Reporting(w, result, announced)) else None
    case MessageStart(m) => if !announced && m == result then Some(Reporting(w, result, true)) else None
    case MessageEnd(m) => if announced && m == result then Some(Working(w.(done := w.done + [m]))) else None
    case _ => None
  }

  predicate ShowsMessage(ev: AgentEvent) {
    ev.MessageStart? || ev.MessageUpdate? || ev.MessageEnd?
  }

  /** At a `turn_end`, and in the payload of a normal `agent_end`, the loop's arrays must be the
      transcript as the ended messages tell it. While a reply is shown, its state must be the last
      message of the loop's context. */
  predicate SnapshotAgrees(m: Monitor, e: Entry)
    requires e.Emit?
  {
    && ((m.phase.Asked? || m.phase.Streaming?) && ShowsMessage(e.event) ==>
          e.context == m.Transcript() + [e.event.message])
    && (e.event.TurnEnd? ==> e.context == m.Transcript() && e.newMessages == m.ended)
    && (e.event.AgentEnd? && m.phase.Stopping? ==> e.event.messages == m.ended)
  }

  function EndedBy(ev: AgentEvent): seq<Message> {
    if ev.MessageEnd? then [ev.message] else []
  }

  function Next(m: Monitor, e: Entry): Option<Monitor> {
    match e
    case Request(ms) =>
      if m.phase == Injecting([], false) && ms == m.Transcript() then Some(m.(phase := Asked)) else None
    case Crash(f) =>
      if (m.phase.Asked? || m.phase.Streaming?) && f.Failed() && f.ToolCalls() == [] then
        Some(m.(phase := Crashed(f), ended := m.ended + [Assistant(f)]))
      else None
    case Poll(source, ds) =>
      if source.Steering? && m.phase == Injecting([], true) then Some(m.(phase := Injecting(ds, false)))
      else if source.Steering? && m.phase.Settled? then
        Some(m.(phase := if m.phase.tools || ds != [] then Between(ds) else Quiet))
      else if source.FollowUp? && m.phase.Quiet? then
        Some(m.(phase := if ds != [] then Between(ds) else Stopping))
      else None
    case Emit(ev, _, _) =>
      match NextPhase(m.phase, ev)
      case None => None
      case Some(p) =>
        if SnapshotAgrees(m, e) then Some(Monitor(m.base, p, m.ended + EndedBy(ev))) else None
  }

  /** The monitor after a whole log, if every entry was allowed. */
  function Accept(base: seq<Message>, prompts: seq<Message>, log: Log): Option<Monitor> {
    if log == [] then Some(Monitor(base, Init(prompts), []))
    else
      match Accept(base, prompts, log[..|log| - 1])
      case None => None
      case Some(m) => Next(m, log[|log| - 1])
  }

  /** A log that the protocol allows, finished or not. */
  predicate Accepted(base: seq<Message>, prompts: seq<Message>, log: Log) {
    Accept(base, prompts, log).Some?
  }

  predicate Finished(base: seq<Message>, prompts: seq<Message>, log: Log) {
    Accept(base, prompts, log).Some? && Accept(base, prompts, log).value.phase.Over?
  }

  lemma AcceptSnoc(base: seq<Message>, prompts: seq<Message>, log: Log, e: Entry)
    requires Accepted(base, prompts, log)
    ensures Accept(base, prompts, log + [e]) == Next(Accept(base, prompts, log).value, e)
  {
    assert (log + [e])[..|log|] == log;
  }
}
