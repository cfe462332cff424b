/** The agent's set of running tool calls, as a fold over the log. */
module PendingTools {
  import opened AgentTypes
  import opened RunProtocol
  import opened RunTheorems

  /** The ids a listener adds at `tool_execution_start` and drops at `tool_execution_end`. */
  function PendingAfter(pending: set<string>, ev: AgentEvent): set<string> {
    match ev
    case ToolStart(id, _, _) => pending + {id}
    case ToolEnd(id, _, _, _) => pending - {id}
    case _ => pending
  }

  function Pending(log: Log): set<string> {
    if log == [] then {}
    else
      var e := log[|log| - 1];
      var before := Pending(log[..|log| - 1]);
      if e.Emit? then PendingAfter(before, e.event) else before
  }

  predicate Starting(e: Entry, k: Key) {
    e.Emit? && e.event.ToolStart? && Key(e.event.toolCallId, e.event.toolName) == k
  }

  predicate Ending(e: Entry, k: Key) {
    e.Emit? && e.event.ToolEnd? && Key(e.event.toolCallId, e.event.toolName) == k
  }

  function Starts(log: Log, k: Key): nat {
    if log == [] then 0
    else Starts(log[..|log| - 1], k) + if Starting(log[|log| - 1], k) then 1 else 0
  }

  function Ends(log: Log, k: Key): nat {
    if log == [] then 0
    else Ends(log[..|log| - 1], k) + if Ending(log[|log| - 1], k) then 1 else 0
  }

  function Open(p: Phase): multiset<Key> {
    match p
    case Working(w) => w.open
    case Reporting(w, _, _) => w.open
    case _ => multiset{}
  }

  lemma OpenStep(m: Monitor, e: Entry, k: Key)
    requires Next(m, e).Some?
    ensures Open(Next(m, e).value.phase)[k] + (if Ending(e, k) then 1 else 0) ==
            Open(m.phase)[k] + if Starting(e, k) then 1 else 0
  {
    if e.Emit? {
      match m.phase
      case Working(w) => OpenWorkingStep(w, e.event, k);
      case Reporting(w, r, announced) => OpenReportingStep(w, r, announced, e.event, k);
      case _ =>
    }
  }

  lemma OpenWorkingStep(w: Work, ev: AgentEvent, k: Key)
    requires NextWorking(w, ev).Some?
    ensures var e := Emit(ev, [], []);
      Open(NextWorking(w, ev).value)[k] + (if Ending(e, k) then 1 else 0) == w.open[k] + if Starting(e, k) then 1 else 0
  {
  }

  lemma OpenReportingStep(w: Work, r: Message, announced: bool, ev: AgentEvent, k: Key)
    requires NextReporting(w, r, announced, ev).Some?
    ensures !ev.ToolStart? && !ev.ToolEnd? && Open(NextReporting(w, r, announced, ev).value) == w.open
  {
  }

  lemma {:induction false} OpenIsStartedMinusEnded(base: seq<Message>, prompts: seq<Message>, log: Log, k: Key)
    requires Accepted(base, prompts, log)
    ensures Starts(log, k) == Ends(log, k) + Open(Accept(base, prompts, log).value.phase)[k]
  {
    if log != [] {
      OpenIsStartedMinusEnded(base, prompts, log[..|log| - 1], k);
      OpenStep(Accept(base, prompts, log[..|log| - 1]).value, log[|log| - 1], k);
    }
  }

  /** A tool sends updates only between its call's start and its end. */
  lemma UpdatesAreInside(base: seq<Message>, prompts: seq<Message>, log: Log, i: nat)
    requires Accepted(base, prompts, log) && i < |log| && log[i].Emit? && log[i].event.ToolUpdate?
    ensures var k := Key(log[i].event.toolCallId, log[i].event.toolName);
      Starts(log[..i], k) > Ends(log[..i], k)
  {
    var m, _ := StepAt(base, prompts, log, i);
    var k := Key(log[i].event.toolCallId, log[i].event.toolName);
    OpenIsStartedMinusEnded(base, prompts, log[..i], k);
  }

  function Ids(open: multiset<Key>): set<string> {
    set k | k in open :: k.id
  }

  lemma {:induction false} PendingIsOpen(base: seq<Message>, prompts: seq<Message>, log: Log)
    requires Accepted(base, prompts, log)
    ensures Pending(log) <= Ids(Open(Accept(base, prompts, log).value.phase))
  {
    if log != [] {
      var pre, e := log[..|log| - 1], log[|log| - 1];
      PendingIsOpen(base, prompts, pre);
      PendingStep(Accept(base, prompts, pre).value, e, Pending(pre));
    }
  }

  lemma PendingStep(m: Monitor, e: Entry, pending: set<string>)
    requires Next(m, e).Some? && pending <= Ids(Open(m.phase))
    ensures (if e.Emit? then PendingAfter(pending, e.event) else pending) <= Ids(Open(Next(m, e).value.phase))
  {
    if e.Emit? {
      match m.phase
      case Working(w) => PendingWorkingStep(w, e.event, pending);
      case Reporting(w, r, announced) => OpenReportingStep(w, r, announced, e.event, Key("", ""));
      case _ => NoToolEvents(m.phase, e.event);
    }
  }

  lemma NoToolEvents(p: Phase, ev: AgentEvent)
    requires !p.Working? && !p.Reporting? && NextPhase(p, ev).Some?
    ensures !ev.ToolStart? && !ev.ToolEnd? && Open(NextPhase(p, ev).value) == multiset{}
  {
  }

  lemma PendingWorkingStep(w: Work, ev: AgentEvent, pending: set<string>)
    requires NextWorking(w, ev).Some? && pending <= Ids(w.open)
    ensures PendingAfter(pending, ev) <= Ids(Open(NextWorking(w, ev).value))
  {
    var open' := Open(NextWorking(w, ev).value);
    forall id | id in PendingAfter(pending, ev) ensures id in Ids(open') {
      if ev.ToolStart? && id == ev.toolCallId {
        assert Key(id, ev.toolName) in open';
      } else {
        var k :| k in w.open && k.id == id;
        assert k in open';
      }
    }
  }

  /** No call is pending at a `turn_end`, whether or not call ids repeat. */
  lemma NothingPendingAtTurnEnd(base: seq<Message>, prompts: seq<Message>, log: Log, i: nat)
    requires Accepted(base, prompts, log) && i < |log| && log[i].Emit? && log[i].event.TurnEnd?
    ensures Pending(log[..i]) == {}
  {
    var m, _ := StepAt(base, prompts, log, i);
    PendingIsOpen(base, prompts, log[..i]);
  }

  // ---------------------------------------------------------------- Distinct ids

  predicate DistinctIds(calls: seq<ToolCall>) {
    forall i, j :: 0 <= i < j < |calls| ==> calls[i].id != calls[j].id
  }

  predicate DistinctIdsThroughout(log: Log) {
    forall i :: 0 <= i < |log| && log[i].Emit? && log[i].event.MessageEnd? && log[i].event.message.Assistant? ==>
      DistinctIds(log[i].event.message.reply.ToolCalls())
  }

  lemma {:induction false} DistinctOnce(calls: seq<ToolCall>, k: Key)
    requires DistinctIds(calls)
    ensures multiset(CallKeys(calls))[k] <= 1
    ensures k in multiset(CallKeys(calls)) ==> exists i :: 0 <= i < |calls| && Key(calls[i].id, calls[i].name) == k
  {
    if calls != [] {
      var rest, last := calls[..|calls| - 1], calls[|calls| - 1];
      DistinctOnce(rest, k);
      assert CallKeys(calls) == CallKeys(rest) + [Key(last.id, last.name)];
    }
  }

  /** Two open calls never share an id, and the next call to start has a fresh one. */
  lemma OpenDistinct(w: Work, reporting: seq<Message>, k: Key)
    requires Accounted(w, reporting) && DistinctIds(w.reply.ToolCalls()) && k in w.open
    ensures w.open[k] == 1
    ensures forall k' :: k' in w.open && k'.id == k.id ==> k' == k
    ensures w.started < |w.reply.ToolCalls()| ==> w.reply.ToolCalls()[w.started].id != k.id
  {
    var calls := w.reply.ToolCalls()[..w.started];
    DistinctOnce(calls, k);
    var i :| 0 <= i < |calls| && Key(calls[i].id, calls[i].name) == k;
    forall k' | k' in w.open && k'.id == k.id ensures k' == k {
      DistinctOnce(calls, k');
      var j :| 0 <= j < |calls| && Key(calls[j].id, calls[j].name) == k';
    }
  }

  ghost predicate ExactlyPending(p: Phase, pending: set<string>) {
    && pending == Ids(Open(p))
    && (p.Working? ==> Accounted(p.work, []) && DistinctIds(p.work.reply.ToolCalls()))
    && (p.Reporting? ==> p.result.ToolResult? && Accounted(p.work, [p.result]) && DistinctIds(p.work.reply.ToolCalls()))
  }

  lemma ExactStart(w: Work, w': Work, call: ToolCall, pending: set<string>)
    requires ExactlyPending(Working(w), pending)
    requires w.started < |w.reply.ToolCalls()| && w.reply.ToolCalls()[w.started] == call
    requires w' == w.(started := w.started + 1, open := w.open + multiset{Key(call.id, call.name)})
    ensures ExactlyPending(Working(w'), pending + {call.id})
  {
    ToolStartAccounted(w, call);
    var k := Key(call.id, call.name);
    assert forall x :: x in w'.open <==> x in w.open || x == k;
    assert k in w'.open;
  }

  lemma ExactEnd(w: Work, r: Message, pending: set<string>)
    requires ExactlyPending(Working(w), pending)
    requires r.ToolResult? && Key(r.toolCallId, r.toolName) in w.open
    ensures ExactlyPending(Reporting(w.(open := w.open - multiset{Key(r.toolCallId, r.toolName)}), r, false),
                           pending - {r.toolCallId})
  {
    var k := Key(r.toolCallId, r.toolName);
    ToolEndAccounted(w, r);
    OpenDistinct(w, [], k);
    var open' := w.open - multiset{k};
    assert forall x :: x in open' <==> x in w.open && x != k;
    assert Ids(open') == Ids(w.open) - {k.id};
  }

  lemma ExactReported(w: Work, r: Message, pending: set<string>)
    requires ExactlyPending(Reporting(w, r, true), pending)
    ensures ExactlyPending(Working(w.(done := w.done + [r])), pending)
  {
    assert w.done + [r] + [] == w.done + [r];
  }

  lemma ExactStep(m: Monitor, e: Entry, pending: set<string>)
    requires ExactlyPending(m.phase, pending) && e.Emit? && Next(m, e).Some?
    requires e.event.MessageEnd? && e.event.message.Assistant? ==> DistinctIds(e.event.message.reply.ToolCalls())
    ensures ExactlyPending(Next(m, e).value.phase, PendingAfter(pending, e.event))
  {
    match m.phase
    case Working(w) => ExactWorking(m, e, pending);
    case Reporting(w, r, announced) =>
      if e.event.MessageEnd? {
        ExactReported(w, r, pending);
      }
    case Streaming => ExactReply(m, e, pending);
    case _ => NoToolEvents(m.phase, e.event);
  }

  lemma ExactWorking(m: Monitor, e: Entry, pending: set<string>)
    requires m.phase.Working? && ExactlyPending(m.phase, pending) && e.Emit? && Next(m, e).Some?
    ensures ExactlyPending(Next(m, e).value.phase, PendingAfter(pending, e.event))
  {
    var w := m.phase.work;
    var p' := Next(m, e).value.phase;
    match e.event
    case ToolStart(id, name, args) => ExactStart(w, p'.work, ToolCall(id, name, args), pending);
    case ToolEnd(id, name, result, isError) => ExactEnd(w, ToolResult(id, name, result, isError), pending);
    case _ =>
  }

  lemma ExactReply(m: Monitor, e: Entry, pending: set<string>)
    requires m.phase.Streaming? && ExactlyPending(m.phase, pending) && e.Emit? && Next(m, e).Some?
    requires e.event.MessageEnd? && e.event.message.Assistant? ==> DistinctIds(e.event.message.reply.ToolCalls())
    ensures ExactlyPending(Next(m, e).value.phase, PendingAfter(pending, e.event))
  {
    NoToolEvents(m.phase, e.event);
    var p' := Next(m, e).value.phase;
    if p'.Working? {
      NothingStartedAccounted(p'.work);
    }
  }

  lemma NothingStartedAccounted(w: Work)
    requires w == Work(w.reply, 0, [], multiset{})
    ensures Accounted(w, [])
  {
    var none: seq<Message> := [];
    assert none + none == none;
    assert CallKeys(w.reply.ToolCalls()[..0]) == [];
  }

  /** With distinct ids in every reply the agent's pending set is exactly the calls that have
      started and not ended, at every moment of the run. */
  lemma {:induction false} PendingIsExact(base: seq<Message>, prompts: seq<Message>, log: Log)
    requires Accepted(base, prompts, log) && DistinctIdsThroughout(log)
    ensures ExactlyPending(Accept(base, prompts, log).value.phase, Pending(log))
  {
    if log != [] {
      var pre, e := log[..|log| - 1], log[|log| - 1];
      assert DistinctIdsThroughout(pre) by {
        assert forall i :: 0 <= i < |pre| ==> pre[i] == log[i];
      }
      PendingIsExact(base, prompts, pre);
      if e.Emit? {
        ExactStep(Accept(base, prompts, pre).value, e, Pending(pre));
      }
    }
  }

  lemma PendingIsStartedMinusEnded(base: seq<Message>, prompts: seq<Message>, log: Log, id: string)
    requires Accepted(base, prompts, log) && DistinctIdsThroughout(log)
    ensures id in Pending(log) <==> exists name :: Starts(log, Key(id, name)) > Ends(log, Key(id, name))
  {
    PendingIsExact(base, prompts, log);
    var open := Open(Accept(base, prompts, log).value.phase);
    if id in Pending(log) {
      var k :| k in open && k.id == id;
      OpenIsStartedMinusEnded(base, prompts, log, k);
      assert k == Key(id, k.name);
    }
    if name :| Starts(log, Key(id, name)) > Ends(log, Key(id, name)) {
      OpenIsStartedMinusEnded(base, prompts, log, Key(id, name));
      assert Key(id, name) in open;
    }
  }
}
