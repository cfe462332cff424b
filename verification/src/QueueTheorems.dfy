/** What accepted logs guarantee about turns and about queued messages. */
module QueueTheorems {
  import opened AgentTypes
  import opened RunProtocol
  import opened RunTheorems

  // ---------------------------------------------------------------- Counting

  predicate StartsTurn(e: Entry) {
    e.Emit? && e.event.TurnStart?
  }

  predicate EndsToolTurn(e: Entry) {
    e.Emit? && e.event.TurnEnd? && e.event.message.Assistant? && !e.event.message.reply.Failed()
    && e.event.message.reply.ToolCalls() != []
  }

  function Turns(log: Log): nat {
    if log == [] then 0
    else
      Turns(log[..|log| - 1]) + if StartsTurn(log[|log| - 1]) then 1 else 0
  }

  /** Turns that ended with a reply that called tools. */
  function ToolTurns(log: Log): nat {
    if log == [] then 0
    else
      ToolTurns(log[..|log| - 1]) + if EndsToolTurn(log[|log| - 1]) then 1 else 0
  }

  /** Everything the polls took out of the queues, in the order it was taken. */
  function Drained(log: Log): seq<Message> {
    if log == [] then []
    else
      var e := log[|log| - 1];
      Drained(log[..|log| - 1]) + if e.Poll? then e.drained else []
  }

  function DrainedFrom(source: Source, log: Log): seq<Message> {
    if log == [] then []
    else
      var e := log[|log| - 1];
      DrainedFrom(source, log[..|log| - 1]) + if e.Poll? && e.source == source then e.drained else []
  }

  /** The model has been asked since the last `turn_start`. */
  predicate AskedThisTurn(log: Log) {
    log != [] &&
    var e := log[|log| - 1];
    !(e.Emit? && e.event.TurnStart?) && (e.Request? || AskedThisTurn(log[..|log| - 1]))
  }

  predicate Injects(log: Log, e: Entry) {
    e.Emit? && e.event.MessageEnd? && !AskedThisTurn(log)
  }

  /** The messages put in front of the model before it was asked. */
  function Injected(log: Log): seq<Message> {
    if log == [] then []
    else
      var e := log[|log| - 1];
      Injected(log[..|log| - 1]) + if Injects(log[..|log| - 1], e) then [e.event.message] else []
  }

  function InjectedThisTurn(log: Log): seq<Message> {
    if log == [] then []
    else
      var e := log[|log| - 1];
      if e.Emit? && e.event.TurnStart? then []
      else InjectedThisTurn(log[..|log| - 1]) + if Injects(log[..|log| - 1], e) then [e.event.message] else []
  }

  /** Messages taken (or given as prompts) but not yet put in front of the model. */
  function Waiting(p: Phase): seq<Message> {
    match p
    case Init(ps) => ps
    case Begun(ps) => ps
    case Injecting(q, _) => q
    case InjectOpen(q, _) => q
    case Between(q) => q
    case _ => []
  }

  predicate BeforeAsking(p: Phase) {
    p.Init? || p.Begun? || p.Injecting? || p.InjectOpen?
  }

  lemma {:induction false} AskedIsPhase(base: seq<Message>, prompts: seq<Message>, log: Log)
    requires Accepted(base, prompts, log)
    ensures AskedThisTurn(log) == !BeforeAsking(Accept(base, prompts, log).value.phase)
  {
    if log != [] {
      AskedIsPhase(base, prompts, log[..|log| - 1]);
      AskedStep(Accept(base, prompts, log[..|log| - 1]).value, log[|log| - 1]);
    }
  }

  lemma AskedStep(m: Monitor, e: Entry)
    requires Next(m, e).Some?
    ensures BeforeAsking(Next(m, e).value.phase) ==
            ((e.Emit? && e.event.TurnStart?) || (!e.Request? && BeforeAsking(m.phase)))
  {
    match m.phase
    case Working(w) => 
    case Reporting(w, _, _) => 
    case Streaming =>
    case Asked =>
    case Injecting(_, _) =>
    case InjectOpen(_, _) =>
    case Between(_) =>
    case _ =>
  }

  // ---------------------------------------------------------------- Conservation

  lemma WaitingStep(m: Monitor, pre: Log, e: Entry)
    requires Next(m, e).Some? && AskedThisTurn(pre) == !BeforeAsking(m.phase)
    ensures Waiting(m.phase) + (if e.Poll? then e.drained else []) ==
            (if Injects(pre, e) then [e.event.message] else []) + Waiting(Next(m, e).value.phase)
  {
    if m.phase.InjectOpen? {
      assert m.phase.queue == [m.phase.queue[0]] + m.phase.queue[1..];
    }
  }

  /** No message is lost or delivered twice: what was given or drained is, in order, what has
      been injected followed by what still waits. */
  lemma {:induction false} Conservation(base: seq<Message>, prompts: seq<Message>, log: Log)
    requires Accepted(base, prompts, log)
    ensures prompts + Drained(log) == Injected(log) + Waiting(Accept(base, prompts, log).value.phase)
  {
    if log != [] {
      var pre, e := log[..|log| - 1], log[|log| - 1];
      var m := Accept(base, prompts, pre).value;
      Conservation(base, prompts, pre);
      AskedIsPhase(base, prompts, pre);
      WaitingStep(m, pre, e);
      ConservationStep(prompts, Drained(pre), Injected(pre), Waiting(m.phase),
        if e.Poll? then e.drained else [], if Injects(pre, e) then [e.event.message] else [],
        Waiting(Next(m, e).value.phase));
    }
  }

  lemma ConservationStep(prompts: seq<Message>, drained: seq<Message>, injected: seq<Message>, waiting: seq<Message>,
                         taken: seq<Message>, given: seq<Message>, waiting': seq<Message>)
    requires prompts + drained == injected + waiting && waiting + taken == given + waiting'
    ensures prompts + (drained + taken) == (injected + given) + waiting'
  {
    assert prompts + (drained + taken) == (prompts + drained) + taken;
    assert (injected + waiting) + taken == injected + (waiting + taken);
  }

  /** A run that is over has nothing waiting, however it ended: also after a failed reply or a
      crash, every drained message is in the transcript. */
  lemma NothingLost(base: seq<Message>, prompts: seq<Message>, log: Log)
    requires Finished(base, prompts, log)
    ensures Injected(log) == prompts + Drained(log)
  {
    Conservation(base, prompts, log);
  }

  // ---------------------------------------------------------------- Turn bound

  /** A turn that is certain to come although nothing has been drained for it. */
  function Promised(p: Phase): nat {
    if p.Init? || p.Begun? || p.Between? || (p.Settled? && p.tools) then 1 else 0
  }

  predicate AnswersReply(p: Phase) {
    (p.Working? || p.Reporting?) ==> !p.work.reply.Failed()
  }

  lemma PromiseStep(m: Monitor, e: Entry)
    requires Next(m, e).Some? && AnswersReply(m.phase)
    ensures AnswersReply(Next(m, e).value.phase)
    ensures (if StartsTurn(e) then 1 else 0) + Promised(Next(m, e).value.phase) <=
            Promised(m.phase) + (if EndsToolTurn(e) then 1 else 0) + if e.Poll? then |e.drained| else 0
  {
    match m.phase
    case Working(w) =>
    case Reporting(_, _, _) =>
    case Streaming =>
    case Settled(_) =>
    case Quiet =>
    case Between(_) =>
    case _ =>
  }

  lemma {:induction false} TurnPotential(base: seq<Message>, prompts: seq<Message>, log: Log)
    requires Accepted(base, prompts, log)
    ensures Turns(log) + Promised(Accept(base, prompts, log).value.phase) <= 1 + ToolTurns(log) + |Drained(log)|
    ensures AnswersReply(Accept(base, prompts, log).value.phase)
  {
    if log != [] {
      TurnPotential(base, prompts, log[..|log| - 1]);
      PromiseStep(Accept(base, prompts, log[..|log| - 1]).value, log[|log| - 1]);
    }
  }

  /** Turns are paid for: the first is free, every other one needs a reply with tool calls or a
      message drained from a queue. */
  lemma TurnBound(base: seq<Message>, prompts: seq<Message>, log: Log)
    requires Accepted(base, prompts, log)
    ensures Turns(log) <= 1 + ToolTurns(log) + |Drained(log)|
  {
    TurnPotential(base, prompts, log);
  }

  // ---------------------------------------------------------------- Injection discipline

  /** Every poll took at most one message, as in the one-at-a-time mode. */
  predicate OneAtATime(log: Log) {
    forall i :: 0 <= i < |log| && log[i].Poll? ==> |log[i].drained| <= 1
  }

  predicate FirstTurn(log: Log, p: Phase) {
    && (Turns(log) == 0 <==> p.Init? || p.Begun?)
    && (Turns(log) == 0 ==> Drained(log) == [] && Injected(log) == [])
    && ((p.Injecting? || p.InjectOpen?) && p.first ==> Turns(log) == 1 && Drained(log) == [])
    && (Turns(log) <= 1 ==> InjectedThisTurn(log) == Injected(log))
  }

  predicate SmallInjections(log: Log, p: Phase) {
    if p.Between? then |p.queue| <= 1
    else if Turns(log) <= 1 then BeforeAsking(p) ==> |Drained(log)| <= 1
    else |InjectedThisTurn(log)| + |Waiting(p)| <= 1
  }

  lemma OneAtATimeSnoc(pre: Log, e: Entry)
    requires OneAtATime(pre + [e])
    ensures OneAtATime(pre) && (e.Poll? ==> |e.drained| <= 1)
  {
    assert (pre + [e])[|pre|] == e;
    assert forall i :: 0 <= i < |pre| ==> (pre + [e])[i] == pre[i];
  }

  lemma FirstTurnStep(m: Monitor, pre: Log, e: Entry)
    requires FirstTurn(pre, m.phase) && Next(m, e).Some?
    ensures FirstTurn(pre + [e], Next(m, e).value.phase)
  {
    var log := pre + [e];
    assert log[..|pre|] == pre && log[|log| - 1] == e;
    assert Turns(log) == Turns(pre) + if e.Emit? && e.event.TurnStart? then 1 else 0;
    assert Injected(log) == Injected(pre) + if Injects(pre, e) then [e.event.message] else [];
    match e
    case Emit(ev, _, _) => assert Drained(log) == Drained(pre);
    case Poll(_, ds) =>
    case _ => assert Drained(log) == Drained(pre);
  }

  lemma SmallInjectionsStep(m: Monitor, pre: Log, e: Entry)
    requires FirstTurn(pre, m.phase) && SmallInjections(pre, m.phase) && Next(m, e).Some?
    requires AskedThisTurn(pre) == !BeforeAsking(m.phase)
    requires OneAtATime(pre) && (e.Poll? ==> |e.drained| <= 1)
    ensures SmallInjections(pre + [e], Next(m, e).value.phase)
  {
    if e.Poll? {
      SmallAtPoll(m, pre, e);
    } else if StartsTurn(e) {
      SmallAtTurnStart(m, pre, e);
    } else {
      SmallOtherwise(m, pre, e);
    }
  }

  lemma SmallAtPoll(m: Monitor, pre: Log, e: Entry)
    requires FirstTurn(pre, m.phase) && SmallInjections(pre, m.phase) && Next(m, e).Some?
    requires e.Poll? && |e.drained| <= 1
    ensures SmallInjections(pre + [e], Next(m, e).value.phase)
  {
    TurnSnoc(pre, e);
    hide InjectedThisTurn, Turns, Drained, Injected, AskedThisTurn;
  }

  lemma SmallAtTurnStart(m: Monitor, pre: Log, e: Entry)
    requires FirstTurn(pre, m.phase) && SmallInjections(pre, m.phase) && Next(m, e).Some? && StartsTurn(e)
    ensures SmallInjections(pre + [e], Next(m, e).value.phase)
  {
    TurnSnoc(pre, e);
    hide InjectedThisTurn, Turns, Drained, Injected, AskedThisTurn;
    assert m.phase.Begun? || m.phase.Between?;
  }

  /** Within a turn and between polls, the loop neither comes to a decision nor back before asking. */
  lemma WithinTurn(m: Monitor, e: Entry)
    requires Next(m, e).Some? && !e.Poll? && !StartsTurn(e)
    ensures !m.phase.Between? && !Next(m, e).value.phase.Between?
    ensures BeforeAsking(Next(m, e).value.phase) ==> BeforeAsking(m.phase)
  {
    AskedStep(m, e);
  }

  lemma SmallOtherwise(m: Monitor, pre: Log, e: Entry)
    requires SmallInjections(pre, m.phase) && Next(m, e).Some? && !e.Poll? && !StartsTurn(e)
    requires AskedThisTurn(pre) == !BeforeAsking(m.phase)
    ensures SmallInjections(pre + [e], Next(m, e).value.phase)
  {
    TurnSnoc(pre, e);
    WaitingStep(m, pre, e);
    WithinTurn(m, e);
    hide InjectedThisTurn, Turns, Drained, Injected, AskedThisTurn, Next, Waiting, BeforeAsking;
    var injected := if Injects(pre, e) then [e.event.message] else [];
    assert |Waiting(m.phase)| == |injected| + |Waiting(Next(m, e).value.phase)|;
    assert Drained(pre + [e]) == Drained(pre) + [] == Drained(pre);
  }

  lemma TurnSnoc(pre: Log, e: Entry)
    ensures Turns(pre + [e]) == Turns(pre) + if StartsTurn(e) then 1 else 0
    ensures Drained(pre + [e]) == Drained(pre) + if e.Poll? then e.drained else []
    ensures InjectedThisTurn(pre + [e]) ==
            if e.Emit? && e.event.TurnStart? then []
            else InjectedThisTurn(pre) + if Injects(pre, e) then [e.event.message] else []
  {
    assert (pre + [e])[..|pre|] == pre;
  }

  lemma {:induction false} InjectionAlong(base: seq<Message>, prompts: seq<Message>, log: Log)
    requires Accepted(base, prompts, log)
    ensures FirstTurn(log, Accept(base, prompts, log).value.phase)
    ensures OneAtATime(log) ==> SmallInjections(log, Accept(base, prompts, log).value.phase)
  {
    if log != [] {
      var pre, e := log[..|log| - 1], log[|log| - 1];
      assert log == pre + [e];
      InjectionAlong(base, prompts, pre);
      AskedIsPhase(base, prompts, pre);
      FirstTurnStep(Accept(base, prompts, pre).value, pre, e);
      if OneAtATime(log) {
        OneAtATimeSnoc(pre, e);
        SmallInjectionsStep(Accept(base, prompts, pre).value, pre, e);
      }
    }
  }

  /** With one-at-a-time queues at most one queued message lies between two replies, and the
      first reply of a run is preceded by the run's prompts and at most one queued message. */
  lemma InjectionDiscipline(base: seq<Message>, prompts: seq<Message>, log: Log, i: nat)
    requires Accepted(base, prompts, log) && OneAtATime(log) && i < |log| && log[i].Request?
    ensures Turns(log[..i]) >= 2 ==> |InjectedThisTurn(log[..i])| <= 1
    ensures Turns(log[..i]) == 1 ==>
              InjectedThisTurn(log[..i]) == prompts + Drained(log[..i]) && |Drained(log[..i])| <= 1
    ensures Turns(log[..i]) >= 1
  {
    var m, m' := StepAt(base, prompts, log, i);
    InjectionAlong(base, prompts, log[..i]);
    Conservation(base, prompts, log[..i]);
    assert OneAtATime(log[..i]);
  }

  /** The first poll of the run, if there was one, took nothing. */
  predicate FirstPollEmpty(log: Log) {
    forall i :: 0 <= i < |log| && log[i].Poll? && (forall j :: 0 <= j < i ==> !log[j].Poll?) ==> log[i].drained == []
  }

  predicate NoPolls(log: Log) {
    forall i :: 0 <= i < |log| ==> !log[i].Poll?
  }

  predicate BeforeFirstPoll(p: Phase) {
    p.Init? || p.Begun? || ((p.Injecting? || p.InjectOpen?) && p.first)
  }

  lemma {:induction false} NoPollsYet(base: seq<Message>, prompts: seq<Message>, log: Log)
    requires Accepted(base, prompts, log)
    ensures BeforeFirstPoll(Accept(base, prompts, log).value.phase) ==> NoPolls(log)
  {
    if log != [] {
      var pre, e := log[..|log| - 1], log[|log| - 1];
      NoPollsYet(base, prompts, pre);
      NoPollsStep(Accept(base, prompts, pre).value, log);
    }
  }

  lemma NoPollsStep(m: Monitor, log: Log)
    requires log != [] && Next(m, log[|log| - 1]).Some?
    requires BeforeFirstPoll(m.phase) ==> NoPolls(log[..|log| - 1])
    ensures BeforeFirstPoll(Next(m, log[|log| - 1]).value.phase) ==> NoPolls(log)
  {
    var pre, e := log[..|log| - 1], log[|log| - 1];
    if BeforeFirstPoll(Next(m, e).value.phase) {
      StillBeforeFirstPoll(m, e);
      assert forall i :: 0 <= i < |pre| ==> log[i] == pre[i];
    }
  }

  lemma StillBeforeFirstPoll(m: Monitor, e: Entry)
    requires Next(m, e).Some? && BeforeFirstPoll(Next(m, e).value.phase)
    ensures BeforeFirstPoll(m.phase) && !e.Poll?
  {
    match m.phase
    case Injecting(_, _) =>
    case InjectOpen(_, _) =>
    case Working(_) =>
    case Reporting(_, _, _) =>
    case Streaming =>
    case Between(_) =>
    case _ =>
  }

  lemma BeforeAskingStep(m: Monitor, pre: Log, e: Entry)
    requires Next(m, e).Some? && FirstTurn(pre, m.phase)
    requires BeforeAsking(Next(m, e).value.phase) && Turns(pre + [e]) <= 1
    ensures BeforeAsking(m.phase) && (e.Poll? ==> BeforeFirstPoll(m.phase))
  {
    assert (pre + [e])[..|pre|] == pre;
  }

  /** A run whose first poll takes nothing has drained nothing when it first asks the model. */
  lemma {:induction false} NothingDrainedBeforeAsking(base: seq<Message>, prompts: seq<Message>, log: Log)
    requires Accepted(base, prompts, log) && FirstPollEmpty(log) && Turns(log) <= 1
    requires BeforeAsking(Accept(base, prompts, log).value.phase)
    ensures Drained(log) == []
  {
    if log != [] {
      var pre, e := log[..|log| - 1], log[|log| - 1];
      assert log == pre + [e];
      InjectionAlong(base, prompts, pre);
      BeforeAskingStep(Accept(base, prompts, pre).value, pre, e);
      FirstPollEmptyFront(pre, e);
      NothingDrainedBeforeAsking(base, prompts, pre);
      if e.Poll? {
        NoPollsYet(base, prompts, pre);
      }
    }
  }

  lemma FirstPollEmptyFront(pre: Log, e: Entry)
    requires FirstPollEmpty(pre + [e])
    ensures FirstPollEmpty(pre) && (e.Poll? && NoPolls(pre) ==> e.drained == [])
  {
    var log := pre + [e];
    assert forall i :: 0 <= i < |pre| ==> log[i] == pre[i];
    assert log[|pre|] == e;
  }

  lemma FirstPollEmptyUpTo(log: Log, i: nat)
    requires FirstPollEmpty(log) && i <= |log|
    ensures FirstPollEmpty(log[..i])
  {
    assert forall j :: 0 <= j < i ==> log[..i][j] == log[j];
  }

  /** With one-at-a-time queues, a run that continues with one queued message and skips its first
      poll puts at most one queued message before every reply. */
  lemma SkippedPollDiscipline(base: seq<Message>, prompts: seq<Message>, log: Log, i: nat)
    requires Accepted(base, prompts, log) && OneAtATime(log) && FirstPollEmpty(log) && |prompts| <= 1
    requires i < |log| && log[i].Request?
    ensures |InjectedThisTurn(log[..i])| <= 1
  {
    InjectionDiscipline(base, prompts, log, i);
    if Turns(log[..i]) == 1 {
      var m, m' := StepAt(base, prompts, log, i);
      FirstPollEmptyUpTo(log, i);
      NothingDrainedBeforeAsking(base, prompts, log[..i]);
    }
  }

  /** A follow-up is only fetched right after a turn whose reply called no tool and a steering
      poll that found nothing. */
  lemma FollowUpDiscipline(base: seq<Message>, prompts: seq<Message>, log: Log, i: nat)
    requires Accepted(base, prompts, log) && i < |log| && log[i].Poll? && log[i].source.FollowUp?
    ensures i >= 2 && log[i - 1] == Poll(Steering, [])
    ensures log[i - 2].Emit? && log[i - 2].event.TurnEnd? && log[i - 2].event.toolResults == []
    ensures log[i - 2].event.message.Assistant? && !log[i - 2].event.message.reply.Failed()
    ensures log[i - 2].event.message.reply.ToolCalls() == []
  {
    var m, m' := StepAt(base, prompts, log, i);
    assert i > 0;
    var m0, _ := StepAt(base, prompts, log, i - 1);
    QuietOnlyBy(m0, log[i - 1]);
    assert i > 1;
    var m1, _ := StepAt(base, prompts, log, i - 2);
    SettledOnlyBy(m1, log[i - 2]);
    TurnPotential(base, prompts, log[..i - 2]);
    ToolFree(base, prompts, log[..i - 2]);
  }

  lemma QuietOnlyBy(m: Monitor, e: Entry)
    requires Next(m, e).Some? && Next(m, e).value.phase.Quiet?
    ensures e == Poll(Steering, []) && m.phase == Settled(false)
  {
  }

  lemma SettledOnlyBy(m: Monitor, e: Entry)
    requires Next(m, e).Some? && Next(m, e).value.phase.Settled?
    ensures m.phase.Working? && e.Emit?
    ensures e.event == TurnEnd(Assistant(m.phase.work.reply), m.phase.work.done)
    ensures Next(m, e).value.phase.tools == (m.phase.work.reply.ToolCalls() != [])
  {
  }

  predicate WorksOnCalls(p: Phase) {
    && (p.Working? && p.work.reply.ToolCalls() == [] ==> p.work.done == [] && p.work.open == multiset{})
    && (p.Reporting? ==> p.work.reply.ToolCalls() != [])
  }

  lemma WorksOnCallsStep(m: Monitor, e: Entry)
    requires Next(m, e).Some? && WorksOnCalls(m.phase)
    ensures WorksOnCalls(Next(m, e).value.phase)
  {
    match m.phase
    case Working(w) =>
    case Reporting(_, _, _) =>
    case Streaming =>
    case _ =>
  }

  /** A reply without tool calls has no results. */
  lemma {:induction false} ToolFree(base: seq<Message>, prompts: seq<Message>, log: Log)
    requires Accepted(base, prompts, log)
    ensures WorksOnCalls(Accept(base, prompts, log).value.phase)
  {
    if log != [] {
      ToolFree(base, prompts, log[..|log| - 1]);
      WorksOnCallsStep(Accept(base, prompts, log[..|log| - 1]).value, log[|log| - 1]);
    }
  }
}
