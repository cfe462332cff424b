/** What every accepted log guarantees, whatever the model, the tools and the queues did. */
module RunTheorems {
  import opened AgentTypes
  import opened RunProtocol
  import opened Wrappers

  // ---------------------------------------------------------------- Folds over a log

  function Events(log: Log): seq<AgentEvent> {
    if log == [] then []
    else
      var e := log[|log| - 1];
      Events(log[..|log| - 1]) + if e.Emit? then [e.event] else []
  }

  /** The messages a listener has seen end, in order. */
  function Ended(log: Log): seq<Message> {
    if log == [] then []
    else
      Ended(log[..|log| - 1]) +
      match log[|log| - 1]
      case Emit(ev, _, _) => EndedBy(ev)
      case Crash(f) => [Assistant(f)]
      case _ => []
  }

  lemma {:induction false} EndedIsMonitored(base: seq<Message>, prompts: seq<Message>, log: Log)
    requires Accepted(base, prompts, log)
    ensures Accept(base, prompts, log).value.ended == Ended(log)
    ensures Accept(base, prompts, log).value.base == base
  {
    if log != [] {
      EndedIsMonitored(base, prompts, log[..|log| - 1]);
    }
  }

  lemma {:induction false} PrefixAccepted(base: seq<Message>, prompts: seq<Message>, log: Log, i: nat)
    requires Accepted(base, prompts, log) && i <= |log|
    ensures Accepted(base, prompts, log[..i])
    decreases |log|
  {
    if i < |log| {
      PrefixAccepted(base, prompts, log[..|log| - 1], i);
      assert log[..|log| - 1][..i] == log[..i];
    } else {
      assert log[..i] == log;
    }
  }

  /** The step that a log takes at its `i`-th entry. */
  lemma StepAt(base: seq<Message>, prompts: seq<Message>, log: Log, i: nat) returns (m: Monitor, m': Monitor)
    requires Accepted(base, prompts, log) && i < |log|
    ensures Accept(base, prompts, log[..i]) == Some(m) && Accept(base, prompts, log[..i + 1]) == Some(m')
    ensures Next(m, log[i]) == Some(m') && m.base == base && m.ended == Ended(log[..i])
  {
    PrefixAccepted(base, prompts, log, i);
    PrefixAccepted(base, prompts, log, i + 1);
    assert log[..i + 1][..i] == log[..i];
    EndedIsMonitored(base, prompts, log[..i]);
    m := Accept(base, prompts, log[..i]).value;
    m' := Accept(base, prompts, log[..i + 1]).value;
  }

  // ---------------------------------------------------------------- Crashes

  /** The model's stream threw during the run. */
  predicate Crashes(log: Log) {
    exists e <- log :: e.Crash?
  }

  /** What the stream threw, if it did. */
  function CrashOf(log: Log): Option<string> {
    if log == [] then None
    else
      var e := log[|log| - 1];
      if e.Crash? then e.failure.errorMessage else CrashOf(log[..|log| - 1])
  }

  predicate CrashPhase(p: Phase) {
    p.Crashed? || (p.Over? && p.crashed)
  }

  lemma CrashesSnoc(log: Log, e: Entry)
    ensures Crashes(log + [e]) <==> Crashes(log) || e.Crash?
    ensures CrashOf(log + [e]) == if e.Crash? then e.failure.errorMessage else CrashOf(log)
  {
    assert (log + [e])[..|log|] == log;
    assert forall x :: x in log + [e] <==> x in log || x == e;
  }

  lemma CrashStep(m: Monitor, e: Entry)
    requires Next(m, e).Some?
    ensures CrashPhase(Next(m, e).value.phase) <==> CrashPhase(m.phase) || e.Crash?
  {
  }

  /** The protocol knows whether the stream has thrown. */
  lemma {:induction false} CrashIsPhase(base: seq<Message>, prompts: seq<Message>, log: Log)
    requires Accepted(base, prompts, log)
    ensures Crashes(log) <==> CrashPhase(Accept(base, prompts, log).value.phase)
    ensures !Crashes(log) ==> CrashOf(log) == None
  {
    if log != [] {
      var pre, e := log[..|log| - 1], log[|log| - 1];
      CrashIsPhase(base, prompts, pre);
      assert log == pre + [e];
      CrashesSnoc(pre, e);
      CrashStep(Accept(base, prompts, pre).value, e);
      hide Next, CrashPhase, Crashes, CrashOf;
    }
  }

  // ---------------------------------------------------------------- Three-way agreement

  /** The loop's context, the messages it returns and the messages a listener saw end tell the
      same story at every `turn_end`; every request carries exactly that story; and the payload
      of `agent_end` is the run's whole contribution (or the one failure message). */
  lemma Agreement(base: seq<Message>, prompts: seq<Message>, log: Log, i: nat)
    requires Accepted(base, prompts, log) && i < |log|
    ensures log[i].Emit? && log[i].event.TurnEnd? ==>
              log[i].newMessages == Ended(log[..i]) && log[i].context == base + Ended(log[..i])
    ensures log[i].Request? ==> log[i].messages == base + Ended(log[..i])
    ensures log[i].Emit? && log[i].event.AgentEnd? ==>
              || log[i].event.messages == Ended(log[..i])
              || (i > 0 && log[i - 1].Crash? && log[i].event.messages == [Assistant(log[i - 1].failure)])
  {
    var m, m' := StepAt(base, prompts, log, i);
    EntryAgrees(m, log[i]);
    if m.phase.Crashed? {
      var m0, m1 := StepAt(base, prompts, log, i - 1);
      CrashesOnlyBy(m0, log[i - 1]);
    }
  }

  lemma EntryAgrees(m: Monitor, e: Entry)
    requires Next(m, e).Some?
    ensures e.Emit? && e.event.TurnEnd? ==> e.newMessages == m.ended && e.context == m.base + m.ended
    ensures e.Request? ==> e.messages == m.base + m.ended
    ensures e.Emit? && e.event.AgentEnd? ==>
              e.event.messages == m.ended ||
              (m.phase.Crashed? && e.event.messages == [Assistant(m.phase.failure)])
  {
  }

  lemma CrashesOnlyBy(m: Monitor, e: Entry)
    requires Next(m, e).Some? && Next(m, e).value.phase.Crashed?
    ensures e == Crash(Next(m, e).value.phase.failure)
  {
  }

  // ---------------------------------------------------------------- Tool-call pairing

  /** `results` answers `calls`: one result for each call and no other. */
  predicate Answers(calls: seq<ToolCall>, results: seq<Message>) {
    AllResults(results) && multiset(ResultKeys(results)) == multiset(CallKeys(calls))
  }

  /** How many results must follow `m`. */
  function Owed(m: Message): nat {
    if m.Assistant? && !m.reply.Failed() then |m.reply.ToolCalls()| else 0
  }

  predicate Closes(m: Message, results: seq<Message>) {
    if m.Assistant? && !m.reply.Failed() then Answers(m.reply.ToolCalls(), results)
    else !m.ToolResult? && results == []
  }

  /** Every reply that did not fail is directly followed by one result for each of its tool
      calls, and there is no other tool result. */
  predicate Paired(ms: seq<Message>) {
    ms == [] ||
    var n := 1 + Owed(ms[0]);
    n <= |ms| && Closes(ms[0], ms[1..n]) && Paired(ms[n..])
  }

  lemma {:induction false} PairedConcat(xs: seq<Message>, ys: seq<Message>)
    requires Paired(xs) && Paired(ys)
    ensures Paired(xs + ys)
    decreases |xs|
  {
    if xs == [] {
      assert xs + ys == ys;
    } else {
      var n := 1 + Owed(xs[0]);
      assert (xs + ys)[1..n] == xs[1..n];
      assert (xs + ys)[n..] == xs[n..] + ys;
      PairedConcat(xs[n..], ys);
    }
  }

  lemma PairedSnoc(xs: seq<Message>, m: Message)
    requires Paired(xs)
    requires m.Plain() || (m.Assistant? && m.reply.Failed())
    ensures Paired(xs + [m])
  {
    assert [m][1..] == [];
    assert Paired([m]);
    PairedConcat(xs, [m]);
  }

  lemma PairedTurn(xs: seq<Message>, reply: AssistantMessage, results: seq<Message>)
    requires Paired(xs) && !reply.Failed() && Answers(reply.ToolCalls(), results)
    ensures Paired(xs + [Assistant(reply)] + results)
  {
    var turn := [Assistant(reply)] + results;
    assert |results| == |reply.ToolCalls()| by {
      assert |multiset(ResultKeys(results))| == |multiset(CallKeys(reply.ToolCalls()))|;
    }
    assert Owed(turn[0]) == |results|;
    assert turn[1..1 + |results|] == results;
    assert turn[1 + |results|..] == [];
    PairedConcat(xs, turn);
    assert xs + [Assistant(reply)] + results == xs + turn;
  }

  /** The keys of the results reported so far, of the one being reported and of the calls still
      open are together the keys of the calls started. */
  ghost predicate Accounted(w: Work, reporting: seq<Message>) {
    && w.started <= |w.reply.ToolCalls()|
    && AllResults(w.done + reporting)
    && multiset(ResultKeys(w.done + reporting)) + w.open == multiset(CallKeys(w.reply.ToolCalls()[..w.started]))
  }

  ghost predicate PairedSoFar(m: Monitor) {
    match m.phase
    case Init(ps) => AllPlain(ps) && Paired(m.Transcript())
    case Begun(ps) => AllPlain(ps) && Paired(m.Transcript())
    case Injecting(q, _) => AllPlain(q) && Paired(m.Transcript())
    case InjectOpen(q, _) => AllPlain(q) && Paired(m.Transcript())
    case Between(q) => AllPlain(q) && Paired(m.Transcript())
    case Working(w) =>
      !w.reply.Failed() && Accounted(w, []) &&
      exists xs :: Paired(xs) && m.Transcript() == xs + [Assistant(w.reply)] + w.done
    case Reporting(w, result, _) =>
      !w.reply.Failed() && result.ToolResult? && Accounted(w, [result]) &&
      exists xs :: Paired(xs) && m.Transcript() == xs + [Assistant(w.reply)] + w.done
    case _ => Paired(m.Transcript())
  }

  /** Queued messages are never replies or tool results. */
  predicate PlainPolls(log: Log) {
    forall i :: 0 <= i < |log| && log[i].Poll? ==> AllPlain(log[i].drained)
  }

  lemma ToolStartAccounted(w: Work, call: ToolCall)
    requires Accounted(w, []) && w.started < |w.reply.ToolCalls()| && w.reply.ToolCalls()[w.started] == call
    ensures Accounted(w.(started := w.started + 1, open := w.open + multiset{Key(call.id, call.name)}), [])
  {
    var calls := w.reply.ToolCalls();
    assert CallKeys(calls[..w.started + 1]) == CallKeys(calls[..w.started]) + [Key(call.id, call.name)];
  }

  lemma ToolEndAccounted(w: Work, r: Message)
    requires Accounted(w, []) && r.ToolResult? && Key(r.toolCallId, r.toolName) in w.open
    ensures Accounted(w.(open := w.open - multiset{Key(r.toolCallId, r.toolName)}), [r])
  {
    assert w.done + [] == w.done;
    assert ResultKeys(w.done + [r]) == ResultKeys(w.done) + [Key(r.toolCallId, r.toolName)];
  }

  lemma PairedStep(m: Monitor, e: Entry)
    requires PairedSoFar(m) && Next(m, e).Some?
    requires e.Poll? ==> AllPlain(e.drained)
    ensures PairedSoFar(Next(m, e).value)
  {
    match e
    case Crash(f) => CrashedStep(m, f);
    case Emit(_, _, _) => EmittedStep(m, e);
    case _ => assert Next(m, e).value.Transcript() == m.Transcript();
  }

  lemma CrashedStep(m: Monitor, f: AssistantMessage)
    requires PairedSoFar(m) && Next(m, Crash(f)).Some?
    ensures PairedSoFar(Next(m, Crash(f)).value)
  {
    PairedSnoc(m.Transcript(), Assistant(f));
    assert Next(m, Crash(f)).value.Transcript() == m.Transcript() + [Assistant(f)];
  }

  lemma EmittedStep(m: Monitor, e: Entry)
    requires PairedSoFar(m) && e.Emit? && Next(m, e).Some?
    ensures PairedSoFar(Next(m, e).value)
  {
    hide Next, NextPhase, PairedSoFar;
    match m.phase
    case InjectOpen(q, _) => MessageInjected(m, e);
    case Streaming => ReplyEnded(m, e);
    case Working(w) => WorkingStep(m, e);
    case Reporting(w, r, announced) => ReportingStep(m, e);
    case _ => OtherStep(m, e);
  }

  lemma OtherStep(m: Monitor, e: Entry)
    requires PairedSoFar(m) && Next(m, e).Some? && e.Emit?
    requires !m.phase.InjectOpen? && !m.phase.Streaming? && !m.phase.Reporting? && !m.phase.Working?
    ensures PairedSoFar(Next(m, e).value)
  {
    assert EndedBy(e.event) == [];
    assert Next(m, e).value.Transcript() == m.Transcript();
  }

  lemma MessageInjected(m: Monitor, e: Entry)
    requires m.phase.InjectOpen? && PairedSoFar(m) && e.Emit? && Next(m, e).Some?
    ensures PairedSoFar(Next(m, e).value)
  {
    PairedSnoc(m.Transcript(), m.phase.queue[0]);
    assert Next(m, e).value.Transcript() == m.Transcript() + [m.phase.queue[0]];
  }

  lemma ReportingStep(m: Monitor, e: Entry)
    requires m.phase.Reporting? && PairedSoFar(m) && e.Emit? && Next(m, e).Some?
    ensures PairedSoFar(Next(m, e).value)
  {
    var m', w, r := Next(m, e).value, m.phase.work, m.phase.result;
    if e.event.MessageEnd? {
      var xs :| Paired(xs) && m.Transcript() == xs + [Assistant(w.reply)] + w.done;
      assert w.done + [r] + [] == w.done + [r];
      assert m'.Transcript() == m.Transcript() + [r];
      assert m'.Transcript() == xs + [Assistant(w.reply)] + (w.done + [r]);
    } else {
      assert m'.Transcript() == m.Transcript();
    }
  }

  lemma ReplyEnded(m: Monitor, e: Entry)
    requires m.phase.Streaming? && PairedSoFar(m) && e.Emit? && Next(m, e).Some?
    ensures PairedSoFar(Next(m, e).value)
  {
    var m' := Next(m, e).value;
    if e.event.MessageEnd? {
      var reply := e.event.message.reply;
      assert m'.Transcript() == m.Transcript() + [Assistant(reply)];
      if reply.Failed() {
        PairedSnoc(m.Transcript(), Assistant(reply));
      } else {
        assert m'.Transcript() == m.Transcript() + [Assistant(reply)] + [];
        assert Accounted(m'.phase.work, []) by {
          var none: seq<Message> := [];
          assert none + none == none;
          assert CallKeys(reply.ToolCalls()[..0]) == [];
        }
      }
    } else {
      assert m'.Transcript() == m.Transcript();
    }
  }

  lemma WorkingStep(m: Monitor, e: Entry)
    requires m.phase.Working? && PairedSoFar(m) && e.Emit? && Next(m, e).Some?
    ensures PairedSoFar(Next(m, e).value)
  {
    var m' := Next(m, e).value;
    var w := m.phase.work;
    assert m'.Transcript() == m.Transcript();
    match e.event
    case ToolStart(id, name, args) => ToolStartAccounted(w, ToolCall(id, name, args));
    case ToolEnd(id, name, result, isError) => ToolEndAccounted(w, ToolResult(id, name, result, isError));
    case TurnEnd(_, _) =>
      var xs :| Paired(xs) && m.Transcript() == xs + [Assistant(w.reply)] + w.done;
      assert w.done + [] == w.done;
      assert w.reply.ToolCalls()[..w.started] == w.reply.ToolCalls();
      PairedTurn(xs, w.reply, w.done);
    case _ =>
  }

  lemma {:induction false} PairedAlong(base: seq<Message>, prompts: seq<Message>, log: Log)
    requires Accepted(base, prompts, log) && Paired(base) && AllPlain(prompts) && PlainPolls(log)
    ensures PairedSoFar(Accept(base, prompts, log).value)
  {
    if log == [] {
      assert base + [] == base;
    } else {
      var pre := log[..|log| - 1];
      assert PlainPolls(pre) by {
        forall i | 0 <= i < |pre| && pre[i].Poll? ensures AllPlain(pre[i].drained) { assert pre[i] == log[i]; }
      }
      PairedAlong(base, prompts, pre);
      PairedStep(Accept(base, prompts, pre).value, log[|log| - 1]);
    }
  }

  /** Whenever the model is asked, at every `turn_end` once it is out, and at the end of the
      run, however it ended, the transcript is paired. */
  lemma PairingTheorem(base: seq<Message>, prompts: seq<Message>, log: Log, i: nat)
    requires Accepted(base, prompts, log) && Paired(base) && AllPlain(prompts) && PlainPolls(log) && i < |log|
    ensures log[i].Request? ==> Paired(log[i].messages)
    ensures log[i].Emit? && log[i].event.TurnEnd? ==> Paired(log[i].context)
    ensures log[i].Emit? && log[i].event.AgentEnd? ==> Paired(base + Ended(log[..i]))
  {
    var m, m' := StepAt(base, prompts, log, i);
    assert PlainPolls(log[..i]) && PlainPolls(log[..i + 1]);
    PairedAlong(base, prompts, log[..i]);
    PairedAlong(base, prompts, log[..i + 1]);
    EntryPaired(m, log[i]);
  }

  lemma EntryPaired(m: Monitor, e: Entry)
    requires PairedSoFar(m) && Next(m, e).Some? && PairedSoFar(Next(m, e).value)
    ensures e.Request? ==> Paired(e.messages)
    ensures e.Emit? && e.event.TurnEnd? ==> Paired(e.context)
    ensures e.Emit? && e.event.AgentEnd? ==> Paired(m.Transcript())
  {
    if e.Emit? && e.event.TurnEnd? {
      assert Next(m, e).value.Transcript() == m.Transcript();
    }
  }
}
