/** Where injected messages come from: the prompts, or one of the two queues. */
module QueueOrigins {
  import opened AgentTypes
  import opened QueueTheorems
  import opened RunProtocol
  import opened Wrappers

  /** None stands for the prompts. */
  type Origin = Option<Source>

  /** The origin of what is injected now: the queue that was polled last. */
  function LastPolled(log: Log): Origin {
    if log == [] then None
    else
      var e := log[|log| - 1];
      if e.Poll? then Some(e.source) else LastPolled(log[..|log| - 1])
  }

  /** The messages from one origin that have been injected. */
  function InjectedFrom(origin: Origin, log: Log): seq<Message> {
    if log == [] then []
    else
      var pre, e := log[..|log| - 1], log[|log| - 1];
      InjectedFrom(origin, pre) + if Injects(pre, e) && LastPolled(pre) == origin then [e.event.message] else []
  }

  function GivenBy(origin: Origin, prompts: seq<Message>, log: Log): seq<Message> {
    match origin
    case None => prompts
    case Some(source) => DrainedFrom(source, log)
  }

  function WaitingFrom(origin: Origin, log: Log, p: Phase): seq<Message> {
    if LastPolled(log) == origin then Waiting(p) else []
  }

  /** A queue is polled only when nothing waits, and then what it gives out waits. */
  lemma NothingWaitsAtPoll(m: Monitor, e: Entry)
    requires Next(m, e).Some? && e.Poll?
    ensures Waiting(m.phase) == [] && Waiting(Next(m, e).value.phase) == e.drained
  {
  }

  lemma WaitingChanges(m: Monitor, pre: Log, e: Entry)
    requires Next(m, e).Some? && AskedThisTurn(pre) == !BeforeAsking(m.phase) && !e.Poll?
    ensures Waiting(m.phase) == (if Injects(pre, e) then [e.event.message] else []) + Waiting(Next(m, e).value.phase)
  {
    WaitingStep(m, pre, e);
    assert Waiting(m.phase) + [] == Waiting(m.phase);
  }

  /** Each queue on its own is kept in order: what it gave out is, first in first out, what of it has
      been injected and then what of it still waits. The same holds of the prompts. */
  lemma {:induction false} EachQueueInOrder(base: seq<Message>, prompts: seq<Message>, log: Log, origin: Origin)
    requires Accepted(base, prompts, log)
    ensures GivenBy(origin, prompts, log) ==
            InjectedFrom(origin, log) + WaitingFrom(origin, log, Accept(base, prompts, log).value.phase)
  {
    hide Waiting, AskedThisTurn, Next;
    if log == [] {
      StartsWaiting(base, prompts);
    } else {
      var pre, e := log[..|log| - 1], log[|log| - 1];
      var m := Accept(base, prompts, pre).value;
      EachQueueInOrder(base, prompts, pre, origin);
      AskedIsPhase(base, prompts, pre);
      if e.Poll? {
        NothingWaitsAtPoll(m, e);
        PollInjectsNothing(pre, e);
        assert InjectedFrom(origin, pre) + [] == InjectedFrom(origin, pre);
      } else {
        WaitingChanges(m, pre, e);
        var given := if Injects(pre, e) then [e.event.message] else [];
        var waiting := Waiting(Next(m, e).value.phase);
        assert InjectedFrom(origin, pre) + (given + waiting) == InjectedFrom(origin, pre) + given + waiting;
        assert InjectedFrom(origin, pre) + [] + [] == InjectedFrom(origin, pre) + [];
      }
    }
  }

  lemma StartsWaiting(base: seq<Message>, prompts: seq<Message>)
    ensures Waiting(Accept(base, prompts, []).value.phase) == prompts == [] + prompts
  {
  }

  lemma PollInjectsNothing(pre: Log, e: Entry)
    requires e.Poll?
    ensures !Injects(pre, e)
  {
  }

  /** The origins of the injected messages, one for each. */
  function Origins(log: Log): seq<Origin> {
    if log == [] then []
    else
      var pre, e := log[..|log| - 1], log[|log| - 1];
      Origins(pre) + if Injects(pre, e) then [LastPolled(pre)] else []
  }

  /** The messages with one origin, in order. */
  function Picked(ms: seq<Message>, origins: seq<Origin>, origin: Origin): seq<Message>
    requires |ms| == |origins|
  {
    if ms == [] then []
    else
      var n := |ms| - 1;
      Picked(ms[..n], origins[..n], origin) + if origins[n] == origin then [ms[n]] else []
  }

  lemma PickedSnoc(ms: seq<Message>, origins: seq<Origin>, m: Message, o: Origin, origin: Origin)
    requires |ms| == |origins|
    ensures Picked(ms + [m], origins + [o], origin) == Picked(ms, origins, origin) + if o == origin then [m] else []
    ensures Picked([], [], origin) == []
  {
    assert (ms + [m])[..|ms|] == ms && (origins + [o])[..|ms|] == origins;
  }

  /** What has been injected is an interleaving of what has been injected from each origin. */
  lemma {:induction false} InjectedInterleaves(log: Log, origin: Origin)
    ensures |Origins(log)| == |Injected(log)|
    ensures InjectedFrom(origin, log) == Picked(Injected(log), Origins(log), origin)
  {
    hide AskedThisTurn, Picked;
    if log == [] {
      PickedSnoc([], [], User(""), origin, origin);
    } else {
      var pre, e := log[..|log| - 1], log[|log| - 1];
      InjectedInterleaves(pre, origin);
      if Injects(pre, e) {
        PickedSnoc(Injected(pre), Origins(pre), e.event.message, LastPolled(pre), origin);
      } else {
        assert Injected(log) == Injected(pre) + [] == Injected(pre);
        assert Origins(log) == Origins(pre) + [] == Origins(pre);
      }
    }
  }

  // ---------------------------------------------------------------- Before the first reply

  predicate Polled(log: Log) {
    log != [] && (log[|log| - 1].Poll? || Polled(log[..|log| - 1]))
  }

  /** What the first poll of a run took. */
  function FirstPollTaken(log: Log): seq<Message> {
    if log == [] then []
    else if Polled(log[..|log| - 1]) then FirstPollTaken(log[..|log| - 1])
    else if log[|log| - 1].Poll? then log[|log| - 1].drained
    else []
  }

  predicate Requested(log: Log) {
    log != [] && (log[|log| - 1].Request? || Requested(log[..|log| - 1]))
  }

  /** The messages put in front of the model before its first reply. */
  function BeforeFirstReply(log: Log): seq<Message> {
    if log == [] then []
    else if Requested(log[..|log| - 1]) then BeforeFirstReply(log[..|log| - 1])
    else if log[|log| - 1].Request? then InjectedThisTurn(log[..|log| - 1])
    else []
  }

  predicate UpToFirstReply(prompts: seq<Message>, log: Log, p: Phase) {
    if Requested(log) then Polled(log) && BeforeFirstReply(log) == prompts + FirstPollTaken(log)
    else
      && BeforeAsking(p)
      && InjectedThisTurn(log) + Waiting(p) == prompts + FirstPollTaken(log)
      && (p.Init? || p.Begun? ==> !Polled(log) && InjectedThisTurn(log) == [] && FirstPollTaken(log) == [])
      && (p.Injecting? || p.InjectOpen? ==> Polled(log) == !p.first && (p.first ==> FirstPollTaken(log) == []))
  }

  lemma FirstReplySnoc(pre: Log, e: Entry)
    ensures Polled(pre + [e]) == (e.Poll? || Polled(pre))
    ensures FirstPollTaken(pre + [e]) == if Polled(pre) then FirstPollTaken(pre) else if e.Poll? then e.drained else []
    ensures Requested(pre + [e]) == (e.Request? || Requested(pre))
    ensures BeforeFirstReply(pre + [e]) ==
            if Requested(pre) then BeforeFirstReply(pre) else if e.Request? then InjectedThisTurn(pre) else []
    ensures InjectedThisTurn(pre + [e]) ==
            if e.Emit? && e.event.TurnStart? then []
            else InjectedThisTurn(pre) + if Injects(pre, e) then [e.event.message] else []
  {
    assert (pre + [e])[..|pre|] == pre;
  }

  lemma UpToFirstReplyStep(prompts: seq<Message>, pre: Log, m: Monitor, e: Entry)
    requires UpToFirstReply(prompts, pre, m.phase) && Next(m, e).Some?
    requires AskedThisTurn(pre) == !BeforeAsking(m.phase)
    ensures UpToFirstReply(prompts, pre + [e], Next(m, e).value.phase)
  {
    FirstReplySnoc(pre, e);
    if !Requested(pre) {
      hide Polled, FirstPollTaken, Requested, BeforeFirstReply, InjectedThisTurn;
      match m.phase
      case Init(_) => FirstPhases(prompts, pre, m, e);
      case Begun(_) => FirstPhases(prompts, pre, m, e);
      case Injecting(q, first) => InjectingPhase(prompts, pre, m, e);
      case InjectOpen(q, first) => InjectOpenPhase(prompts, pre, m, e);
    }
  }

  lemma FirstPhases(prompts: seq<Message>, pre: Log, m: Monitor, e: Entry)
    requires UpToFirstReply(prompts, pre, m.phase) && Next(m, e).Some? && !Requested(pre)
    requires m.phase.Init? || m.phase.Begun?
    ensures UpToFirstReply(prompts, pre + [e], Next(m, e).value.phase)
  {
    FirstReplySnoc(pre, e);
    hide Polled, FirstPollTaken, Requested, BeforeFirstReply, InjectedThisTurn;
    assert InjectedThisTurn(pre) + [] == [];
  }

  lemma InjectingPhase(prompts: seq<Message>, pre: Log, m: Monitor, e: Entry)
    requires UpToFirstReply(prompts, pre, m.phase) && Next(m, e).Some? && !Requested(pre) && m.phase.Injecting?
    ensures UpToFirstReply(prompts, pre + [e], Next(m, e).value.phase)
  {
    FirstReplySnoc(pre, e);
    hide Polled, FirstPollTaken, Requested, BeforeFirstReply, InjectedThisTurn;
    assert InjectedThisTurn(pre) + [] == InjectedThisTurn(pre) && prompts + [] == prompts;
  }

  lemma EndsInjection(m: Monitor, e: Entry)
    requires Next(m, e).Some? && m.phase.InjectOpen?
    ensures m.phase.queue != [] && e.Emit? && e.event == MessageEnd(m.phase.queue[0])
    ensures Next(m, e).value.phase == Injecting(m.phase.queue[1..], m.phase.first)
  {
  }

  lemma InjectOpenPhase(prompts: seq<Message>, pre: Log, m: Monitor, e: Entry)
    requires UpToFirstReply(prompts, pre, m.phase) && Next(m, e).Some? && !Requested(pre) && m.phase.InjectOpen?
    requires !AskedThisTurn(pre)
    ensures UpToFirstReply(prompts, pre + [e], Next(m, e).value.phase)
  {
    FirstReplySnoc(pre, e);
    EndsInjection(m, e);
    assert Injects(pre, e);
    hide Polled, FirstPollTaken, Requested, BeforeFirstReply, InjectedThisTurn, Next, AskedThisTurn, Injects;
    var q := m.phase.queue;
    assert Waiting(m.phase) == q && Waiting(Next(m, e).value.phase) == q[1..];
    assert InjectedThisTurn(pre) + q == InjectedThisTurn(pre) + [q[0]] + q[1..];
  }

  lemma {:induction false} UpToFirstReplyAlong(base: seq<Message>, prompts: seq<Message>, log: Log)
    requires Accepted(base, prompts, log)
    ensures UpToFirstReply(prompts, log, Accept(base, prompts, log).value.phase)
  {
    if log == [] {
      assert [] + prompts == prompts + [];
    } else {
      var pre, e := log[..|log| - 1], log[|log| - 1];
      assert log == pre + [e];
      UpToFirstReplyAlong(base, prompts, pre);
      AskedIsPhase(base, prompts, pre);
      UpToFirstReplyStep(prompts, pre, Accept(base, prompts, pre).value, e);
    }
  }

  /** Before the first reply of a run the model gets the prompts and what the first poll took. */
  lemma FirstReplyFollows(base: seq<Message>, prompts: seq<Message>, log: Log)
    requires Finished(base, prompts, log)
    ensures Requested(log) && Polled(log) && BeforeFirstReply(log) == prompts + FirstPollTaken(log)
  {
    UpToFirstReplyAlong(base, prompts, log);
  }

  lemma {:induction false} UnpolledTookNothing(log: Log)
    ensures !Polled(log) ==> FirstPollTaken(log) == []
  {
    if log != [] {
      UnpolledTookNothing(log[..|log| - 1]);
    }
  }

  /** What comes after does not change what the first poll took. */
  lemma {:induction false} FirstPollStays(log: Log, log': Log)
    requires |log| <= |log'| && log'[..|log|] == log
    requires (Polled(log) || forall i :: |log| <= i < |log'| ==> !log'[i].Poll?)
    ensures FirstPollTaken(log') == FirstPollTaken(log) && Polled(log') == Polled(log)
  {
    if |log| == |log'| {
      assert log' == log;
    } else {
      var front := log'[..|log'| - 1];
      assert front[..|log|] == log;
      FirstPollStays(log, front);
      UnpolledTookNothing(front);
    }
  }

  lemma {:induction false} NoPollsIsUnpolled(log: Log)
    requires NoPolls(log)
    ensures !Polled(log)
  {
    if log != [] {
      assert forall i :: 0 <= i < |log| - 1 ==> log[..|log| - 1][i] == log[i];
      NoPollsIsUnpolled(log[..|log| - 1]);
    }
  }

  /** The first poll comes directly after a log without one. */
  lemma FirstPollComes(log: Log, log': Log)
    requires NoPolls(log) && |log| < |log'| && log'[..|log|] == log && log'[|log|].Poll?
    ensures FirstPollTaken(log') == log'[|log|].drained
  {
    NoPollsIsUnpolled(log);
    var upTo := log'[..|log| + 1];
    assert upTo == log + [log'[|log|]];
    FirstReplySnoc(log, log'[|log|]);
    FirstPollStays(upTo, log');
  }
}
