/** One run of the agent loop: turns, injected messages, tool calls and the two endings. */
module AgentLoop {
  import opened AgentStates
  import opened AgentTypes
  import opened Lists
  import opened ModelStreams
  import opened PendingTools
  import opened QueueOrigins
  import opened RunPlots
  import opened RunProtocol
  import opened ToolRuns
  import opened ToolTraces
  import opened Worlds
  import opened Wrappers

  // ---------------------------------------------------------------- Running tools

  /** A tool that has been started; it has sent its first `next` partial results. */
  datatype Execution = Execution(call: ToolCall, run: ToolRun, next: nat) {
    predicate Sane() {
      next <= |run.updates|
    }

    predicate Settled() {
      next == |run.updates|
    }

    function K(): Key {
      Key(call.id, call.name)
    }
  }

  function CallsOf(pool: seq<Execution>): (calls: seq<ToolCall>)
    ensures |calls| == |pool|
  {
    seq(|pool|, i requires 0 <= i < |pool| => pool[i].call)
  }

  /** Tools that have not settled belong to calls that are still open. */
  predicate Fits(pool: seq<Execution>, open: multiset<Key>) {
    forall j :: 0 <= j < |pool| ==> pool[j].Sane() && (pool[j].Settled() || pool[j].K() in open)
  }

  /** The same tools, each at least as far as before. */
  predicate Further(pool: seq<Execution>, pool': seq<Execution>) {
    |pool'| == |pool| &&
    forall j :: 0 <= j < |pool| ==>
      pool'[j].call == pool[j].call && pool'[j].run == pool[j].run && pool[j].next <= pool'[j].next
  }

  /** For distinct ids: exactly the partial results that were sent have been shown, in order. */
  predicate Told(pool: seq<Execution>, es: seq<AgentEvent>) {
    DistinctIds(CallsOf(pool)) ==>
      forall j :: 0 <= j < |pool| ==>
        pool[j].Sane() && UpdatesFor(pool[j].call.id, es) == pool[j].run.updates[..pool[j].next]
  }

  /** A partial result of this tool, for its call. */
  predicate SentBy(running: Execution, e: AgentEvent) {
    e.ToolUpdate? && e == UpdateEvent(running.call, e.partial) && e.partial in running.run.updates
  }

  /** Every partial result shown was sent by a running tool. */
  predicate Sent(pool: seq<Execution>, es: seq<AgentEvent>) {
    forall e <- es :: e.ToolUpdate? ==> exists running <- pool :: SentBy(running, e)
  }

  class LoopRun {
    const state: AgentState
    const config: Config
    /** All that the run gets from outside. */
    ghost const plot: Plot

    /** The transcript that the model sees, and what this run adds to it. */
    var context: seq<Message>
    var newMessages: seq<Message>
    var skipInitialSteeringPoll: bool

    /** The tools running concurrently, and what is left of the schedule for them. */
    var pool: seq<Execution>
    var schedule: seq<Step>
    /** What the model was asked last, the events since then, those of its reply first, and the number
        of turns that have ended. */
    ghost var asked: seq<Message>
    ghost var streamed: seq<AgentEvent>
    ghost var since: seq<AgentEvent>
    ghost var turnsEnded: nat

    ghost predicate Valid()
      reads this, state, state.steeringQueue, state.followUpQueue
    {
      state.InRun() && Recorded() && OnPlot()
    }

    ghost predicate Recorded()
      reads this`asked, this`streamed, this`since, this`turnsEnded, state`log
    {
      Records(state.log, asked, streamed + since, turnsEnded)
    }

    /** The run so far is what its plot says, and so are the queues. */
    ghost predicate OnPlot()
      reads this`skipInitialSteeringPoll, state`log, state.steeringQueue, state.followUpQueue
    {
      && config == plot.config
      && Plotted(plot, state.log, skipInitialSteeringPoll, state.Queue(Steering), state.Queue(FollowUp))
    }

    lemma QueuesOnPlot()
      requires Valid()
      ensures Follows(plot, state.log)
      ensures state.Queue(Steering) == Left(plot, Steering, state.log)
      ensures state.Queue(FollowUp) == Left(plot, FollowUp, state.log)
    {
    }

    ghost function M(): Monitor
      reads this, state, state.steeringQueue, state.followUpQueue
      requires Valid()
    {
      state.Mon()
    }

    ghost function Now(): Snapshot
      reads this, state, state.steeringQueue, state.followUpQueue
      requires Valid()
    {
      Snapshot(state.start, M(), pool, since)
    }

    constructor (state: AgentState, config: Config, context: seq<Message>, newMessages: seq<Message>, skip: bool,
                 ghost plot: Plot)
      ensures this.state == state && this.config == config && this.context == context && this.plot == plot
      ensures this.newMessages == newMessages && skipInitialSteeringPoll == skip
      ensures asked == [] && streamed == [] && since == [] && turnsEnded == 0
    {
      this.state, this.config, this.context, this.newMessages := state, config, context, newMessages;
      skipInitialSteeringPoll, pool, schedule := skip, [], [];
      this.plot, asked, streamed, since, turnsEnded := plot, [], [], [], 0;
    }

    method Emit(event: AgentEvent)
      requires Valid() && NextPhase(M().phase, event).Some? && !event.TurnEnd?
      requires SnapshotAgrees(M(), Entry.Emit(event, context, newMessages))
      modifies state, this`since
      ensures Valid() && state.start == old(state.start)
      ensures M() == Monitor(old(M().base), NextPhase(old(M().phase), event).value, old(M().ended) + EndedBy(event))
      ensures since == old(since) + [event]
    {
      hide AgentState.InRun, AgentState.Mon, Accept, Records, Plotted, NextPhase, SnapshotAgrees;
      EventLogged(event);
      since := since + [event];
      state.ProcessEvents(event, context, newMessages);
      state.MonitorIsAccepted();
    }

    /** An event that the protocol allows and the plot has leaves the run valid. */
    lemma EventLogged(event: AgentEvent)
      requires Valid() && NextPhase(M().phase, event).Some?
      requires SnapshotAgrees(M(), Entry.Emit(event, context, newMessages))
      requires event.TurnEnd? ==> TurnFollows(plot, state.log, event.message, event.toolResults)
      ensures var log := state.log + [Entry.Emit(event, context, newMessages)];
        && Accept(state.start.base, state.start.prompts, log) ==
           Some(Monitor(M().base, NextPhase(M().phase, event).value, M().ended + EndedBy(event)))
        && Records(log, asked, streamed + (since + [event]), turnsEnded + if event.TurnEnd? then 1 else 0)
        && Plotted(plot, log, skipInitialSteeringPoll, state.Queue(Steering), state.Queue(FollowUp))
    {
      var e := Entry.Emit(event, context, newMessages);
      AcceptSnoc(state.start.base, state.start.prompts, state.log, e);
      EntryRecorded(plot, state.log, e, skipInitialSteeringPoll, asked, streamed + since, turnsEnded,
                    state.Queue(Steering), state.Queue(FollowUp));
      Regroup(streamed, since, [event]);
    }

    // -------------------------------------------------------------- Concurrent tools

    /** Lets the `j`-th running tool send its next partial result. */
    method SendUpdate(j: nat)
      requires Valid() && Running(Now())
      requires j < |pool| && !pool[j].Settled()
      modifies state, this`since, this`pool
      ensures Valid() && Progress(old(Now()), Now())
      ensures pool[j].next == old(pool[j].next) + 1
    {
      hide AgentState.InRun, AgentState.Mon, Recorded, OnPlot;
      ghost var before := Now();
      var r := pool[j];
      Emit(UpdateEvent(r.call, r.run.updates[r.next]));
      pool := pool[j := r.(next := r.next + 1)];
      SendProgress(before, Now(), j, UpdateEvent(r.call, r.run.updates[r.next]));
    }

    /** An await: any running tools may send any number of partial results. */
    method LetToolsRun()
      requires Valid() && Running(Now())
      modifies state, this`since, this`pool, this`schedule
      ensures Valid() && Progress(old(Now()), Now())
    {
      hide AgentState.InRun, AgentState.Mon, Recorded, OnPlot;
      while schedule != [] && schedule[0].Advance?
        invariant Valid() && Progress(old(Now()), Now())
        decreases |schedule|
      {
        var j := schedule[0].j;
        schedule := schedule[1..];
        if j < |pool| && !pool[j].Settled() {
          ghost var before := Now();
          SendUpdate(j);
          ProgressTransitive(old(Now()), before, Now());
        }
      }
      if schedule != [] {
        schedule := schedule[1..];
      }
    }

    /** Awaits one execution: the others may go on, and this one sends all it has left. */
    method AwaitExecution(k: nat)
      requires Valid() && Running(Now()) && k < |pool|
      modifies state, this`since, this`pool, this`schedule
      ensures Valid() && Progress(old(Now()), Now()) && k < |pool| && pool[k].Settled()
      ensures M() == old(M())
      ensures Further(old(pool), pool) && Fits(pool, Open(M().phase))
    {
      hide AgentState.InRun, AgentState.Mon, Recorded, OnPlot;
      LetToolsRun();
      while !pool[k].Settled()
        invariant Valid() && Progress(old(Now()), Now())
        decreases |pool[k].run.updates| - pool[k].next
      {
        ghost var before := Now();
        SendUpdate(k);
        ProgressTransitive(old(Now()), before, Now());
      }
    }

    // -------------------------------------------------------------- Reporting an outcome

    /** Emits one event of the loop's own and lets the tools run. */
    method EmitAndYield(event: AgentEvent)
      requires Valid() && NextPhase(M().phase, event).Some? && !event.TurnEnd? && !event.AgentEnd? && !event.ToolUpdate?
      requires NextPhase(M().phase, event).value.Working? || NextPhase(M().phase, event).value.Reporting?
      requires (M().phase.Working? || M().phase.Reporting?) && Fits(pool, Open(NextPhase(M().phase, event).value))
      modifies state, this`since, this`pool, this`schedule
      ensures Valid() && Advanced(old(Now()), Now(), [event])
      ensures M() == Monitor(old(M().base), NextPhase(old(M().phase), event).value, old(M().ended) + EndedBy(event))
    {
      hide AgentState.InRun, AgentState.Mon, Recorded, OnPlot;
      ghost var before := Now();
      Emit(event);
      ghost var between := Now();
      EmitAdvances(before, between, event);
      LetToolsRun();
      AdvancedTransitive(before, between, Now(), [event], []);
      assert [event] + [] == [event];
    }

    method EmitToolCallOutcome(call: ToolCall, output: ToolOutput, isError: bool) returns (r: Message)
      requires Valid() && M().phase.Working?
      requires Key(call.id, call.name) in M().phase.work.open
      requires Fits(pool, M().phase.work.open - multiset{Key(call.id, call.name)})
      modifies state, this`since, this`pool, this`schedule
      ensures Valid() && r == ResultMessage(call, output, isError)
      ensures Further(old(pool), pool) && Fits(pool, Open(M().phase))
      ensures Advanced(old(Now()), Now(), OutcomeEvents(r))
      ensures M().base == old(M().base) && M().ended == old(M().ended) + [r]
      ensures var w := old(M().phase.work);
        M().phase == Working(w.(done := w.done + [r], open := w.open - multiset{Key(call.id, call.name)}))
    {
      hide AgentState.InRun, AgentState.Mon, Recorded, OnPlot;
      r := ResultMessage(call, output, isError);
      ghost var s0 := Now();
      ghost var w := M().phase.work.(open := M().phase.work.open - multiset{Key(call.id, call.name)});
      ReportingPhases(M().phase.work, call, output, isError);
      EmitAndYield(ToolEnd(call.id, call.name, output, isError));
      assert M().phase == Reporting(w, r, false) && M().ended == s0.mon.ended;
      ghost var s1 := Now();
      EmitAndYield(MessageStart(r));
      assert M().phase == Reporting(w, r, true) && M().ended == s0.mon.ended;
      ghost var s2 := Now();
      EmitAndYield(MessageEnd(r));
      assert M().phase == Working(w.(done := w.done + [r])) && M().ended == s0.mon.ended + [r];
      AdvancedThrice(s0, s1, s2, Now(), ToolEnd(call.id, call.name, output, isError), MessageStart(r), MessageEnd(r));
    }

    /** Applies the `afterToolCall` hook to an execution's outcome and reports the result. */
    method FinalizeExecutedToolCall(scene: Scene, prepared: Preparation, outcome: Result<ToolOutput>)
      returns (r: Message)
      requires Valid() && M().phase.Working?
      requires prepared.Prepared? && scene.Prepare(prepared.call) == prepared
      requires outcome == scene.Execution(prepared.call).outcome
      requires Key(prepared.call.id, prepared.call.name) in M().phase.work.open
      requires Fits(pool, M().phase.work.open - multiset{Key(prepared.call.id, prepared.call.name)})
      modifies state, this`since, this`pool, this`schedule
      ensures Valid() && r == scene.Outcome(prepared.call)
      ensures Further(old(pool), pool) && Fits(pool, Open(M().phase))
      ensures Advanced(old(Now()), Now(), OutcomeEvents(r))
      ensures M().base == old(M().base) && M().ended == old(M().ended) + [r]
      ensures var w := old(M().phase.work);
        M().phase == Working(w.(done := w.done + [r],
                                open := w.open - multiset{Key(prepared.call.id, prepared.call.name)}))
    {
      hide AgentState.InRun, AgentState.Mon, Recorded, OnPlot;
      var result := if outcome.Ok? then outcome.value else ErrorOutput(outcome.error);
      var isError := outcome.Err?;
      if scene.config.after.Some? {
        var afterResult := scene.config.after.value(
          scene.reply, prepared.call, prepared.args, result, isError, scene.context);
        if afterResult.Some? {
          var o := afterResult.value;
          result := ToolOutput(
            if o.content.Some? then o.content.value else result.content,
            if o.details.Some? then o.details.value else result.details);
          isError := if o.isError.Some? then o.isError.value else isError;
        }
      }
      assert scene.Outcome(prepared.call) == ResultMessage(prepared.call, result, isError);
      hide Scene.Outcome, Scene.Prepare, Scene.Execution, Scene.Finalized, Advanced, Further, Fits, NextPhase,
        ResultMessage, OutcomeEvents;
      r := EmitToolCallOutcome(prepared.call, result, isError);
    }

    // -------------------------------------------------------------- One call after the other

    method EmitUpdates(call: ToolCall, updates: seq<ToolOutput>)
      requires Valid() && M().phase.Working? && Key(call.id, call.name) in M().phase.work.open
      modifies state, this`since
      ensures Valid() && state.start == old(state.start) && M() == old(M())
      ensures since == old(since) + UpdateEvents(call, updates)
    {
      hide AgentState.InRun, AgentState.Mon, Recorded, OnPlot;
      for i := 0 to |updates|
        invariant Valid() && state.start == old(state.start) && M() == old(M())
        invariant since == old(since) + UpdateEvents(call, updates[..i])
      {
        assert UpdateEvents(call, updates[..i + 1]) ==
               UpdateEvents(call, updates[..i]) + [UpdateEvent(call, updates[i])];
        Emit(UpdateEvent(call, updates[i]));
      }
      assert updates[..|updates|] == updates;
    }

    /** Runs the `i`-th call of the reply from its start to its result. */
    method ExecuteOne(scene: Scene, ghost calls: seq<ToolCall>, call: ToolCall) returns (r: Message)
      requires Valid() && M().phase.Working? && pool == []
      requires calls == M().phase.work.reply.ToolCalls() && M().phase.work.open == multiset{}
      requires M().phase.work.started < |calls| && calls[M().phase.work.started] == call
      modifies state, this`since, this`pool, this`schedule
      ensures Valid() && state.start == old(state.start) && pool == []
      ensures r == scene.Outcome(call)
      ensures since == old(since) + CallTrace(scene, call)
      ensures M().base == old(M().base) && M().ended == old(M().ended) + [r]
      ensures var w := old(M().phase.work);
        M().phase == Working(w.(started := w.started + 1, done := w.done + [r]))
    {
      hide AgentState.InRun, AgentState.Mon, Recorded, OnPlot;
      ghost var s0 := Now();
      ghost var w := M().phase.work;
      ghost var running := w.(started := w.started + 1, open := multiset{Key(call.id, call.name)});
      EmitAndYield(StartEvent(call));
      assert M() == s0.mon.(phase := Working(running));
      ghost var s1 := Now();
      CallTraceParts(scene, call);
      var preparation := scene.Prepare(call);
      if preparation.Immediate? {
        r := EmitToolCallOutcome(call, preparation.result, preparation.isError);
        Regroup(s0.since, [StartEvent(call)], OutcomeEvents(r));
      } else {
        var run := preparation.tool.execute(call.id, preparation.args, scene.context);
        EmitUpdates(call, run.updates);
        ghost var s2 := Now();
        r := FinalizeExecutedToolCall(scene, preparation, run.outcome);
        Regroup(s0.since, [StartEvent(call)], UpdateEvents(call, run.updates));
        Regroup(s0.since, [StartEvent(call)] + UpdateEvents(call, run.updates), OutcomeEvents(r));
      }
      assert running.open - multiset{Key(call.id, call.name)} == multiset{};
    }

    method ExecuteToolCallsSequential(scene: Scene, calls: seq<ToolCall>) returns (results: seq<Message>)
      requires Valid() && pool == []
      requires M().phase == Working(Work(scene.reply, 0, [], multiset{})) && calls == scene.reply.ToolCalls()
      modifies state, this`since, this`pool, this`schedule
      ensures Valid() && state.start == old(state.start)
      ensures results == scene.InOrder(calls)
      ensures since == old(since) + SequentialTrace(scene, calls)
      ensures M().base == old(M().base) && M().ended == old(M().ended) + results
      ensures M().phase == Working(Work(scene.reply, |calls|, results, multiset{}))
    {
      hide AgentState.InRun, AgentState.Mon, Recorded, OnPlot;
      results := [];
      for i := 0 to |calls|
        invariant Valid() && state.start == old(state.start) && pool == []
        invariant results == scene.InOrder(calls[..i])
        invariant since == old(since) + SequentialTrace(scene, calls[..i])
        invariant M().base == old(M().base) && M().ended == old(M().ended) + results
        invariant M().phase == Working(Work(scene.reply, i, results, multiset{}))
      {
        var r := ExecuteOne(scene, calls, calls[i]);
        Regroup(old(M().ended), results, [r]);
        results := results + [r];
        SequentialTraceSnoc(scene, calls, i);
        Regroup(old(since), SequentialTrace(scene, calls[..i]), CallTrace(scene, calls[i]));
      }
      assert calls[..|calls|] == calls;
    }

    // -------------------------------------------------------------- Concurrent calls

    /** Starts one call and reports it at once if it is refused. */
    method Preflight(scene: Scene, ghost calls: seq<ToolCall>, call: ToolCall)
      returns (preparation: Preparation, refusal: seq<Message>)
      requires Valid() && M().phase.Working? && pool == []
      requires calls == M().phase.work.reply.ToolCalls()
      requires M().phase.work.started < |calls| && calls[M().phase.work.started] == call
      modifies state, this`since, this`pool, this`schedule
      ensures Valid() && state.start == old(state.start) && pool == []
      ensures preparation == scene.Prepare(call)
      ensures refusal == if scene.Runs(call) then [] else [scene.Outcome(call)]
      ensures since == old(since) + PreflightEvents(scene, call)
      ensures M().base == old(M().base) && M().ended == old(M().ended) + refusal
      ensures var w := old(M().phase.work);
        M().phase == Working(w.(started := w.started + 1, done := w.done + refusal,
          open := if scene.Runs(call) then w.open + multiset{Key(call.id, call.name)} else w.open))
    {
      hide AgentState.InRun, AgentState.Mon, Recorded, OnPlot;
      ghost var s0 := Now();
      ghost var w := M().phase.work;
      ghost var running := w.(started := w.started + 1, open := w.open + multiset{Key(call.id, call.name)});
      EmitAndYield(StartEvent(call));
      assert M() == s0.mon.(phase := Working(running));
      ghost var s1 := Now();
      CallTraceParts(scene, call);
      preparation := scene.Prepare(call);
      refusal := [];
      if preparation.Immediate? {
        var r := EmitToolCallOutcome(call, preparation.result, preparation.isError);
        refusal := [r];
        Regroup(s0.since, [StartEvent(call)], OutcomeEvents(r));
        assert running.open - multiset{Key(call.id, call.name)} == w.open;
      } else {
        assert [StartEvent(call)] + [] == [StartEvent(call)];
      }
    }

    /** Starts the `i`-th call, after those before it. */
    method PreflightNext(scene: Scene, calls: seq<ToolCall>, i: nat, before: seq<Preparation>, refused: seq<Message>,
                         ghost s0: Snapshot)
      returns (prepared: seq<Preparation>, results: seq<Message>)
      requires Valid() && pool == [] && i < |calls| && calls == scene.reply.ToolCalls()
      requires refused == scene.InOrder(scene.Refused(calls[..i]))
      requires before == Map(scene.Prepare, scene.Runnable(calls[..i]))
      requires since == s0.since + PreflightTrace(scene, calls[..i]) && state.start == s0.start
      requires M().base == s0.mon.base && M().ended == s0.mon.ended + refused
      requires M().phase == Working(Work(scene.reply, i, refused, OpenKeys(scene.Runnable(calls[..i]))))
      modifies state, this`since, this`pool, this`schedule
      ensures Valid() && pool == []
      ensures results == scene.InOrder(scene.Refused(calls[..i + 1]))
      ensures prepared == Map(scene.Prepare, scene.Runnable(calls[..i + 1]))
      ensures since == s0.since + PreflightTrace(scene, calls[..i + 1]) && state.start == s0.start
      ensures M().base == s0.mon.base && M().ended == s0.mon.ended + results
      ensures M().phase == Working(Work(scene.reply, i + 1, results, OpenKeys(scene.Runnable(calls[..i + 1]))))
    {
      hide AgentState.InRun, AgentState.Mon, Recorded, OnPlot;
      PreflightSnoc(scene, calls, i);
      hide PreflightTrace, PreflightEvents, OpenKeys, Scene.Refused, Scene.Runnable, Scene.InOrder, Scene.Outcome,
        Scene.Prepare, Map;
      var preparation, refusal := Preflight(scene, calls, calls[i]);
      prepared := if preparation.Prepared? then before + [preparation] else before;
      results := refused + refusal;
      Regroup(s0.mon.ended, refused, refusal);
      Regroup(s0.since, PreflightTrace(scene, calls[..i]), PreflightEvents(scene, calls[i]));
    }

    method PreflightAll(scene: Scene, calls: seq<ToolCall>) returns (prepared: seq<Preparation>, results: seq<Message>)
      requires Valid() && pool == []
      requires M().phase == Working(Work(scene.reply, 0, [], multiset{})) && calls == scene.reply.ToolCalls()
      modifies state, this`since, this`pool, this`schedule
      ensures Valid() && state.start == old(state.start) && pool == []
      ensures results == scene.InOrder(scene.Refused(calls))
      ensures prepared == Map(scene.Prepare, scene.Runnable(calls))
      ensures since == old(since) + PreflightTrace(scene, calls)
      ensures M().base == old(M().base) && M().ended == old(M().ended) + results
      ensures M().phase == Working(Work(scene.reply, |calls|, results, OpenKeys(scene.Runnable(calls))))
    {
      hide AgentState.InRun, AgentState.Mon, Recorded, OnPlot;
      prepared, results := [], [];
      PreflightNone(scene, calls);
      ghost var s0 := Now();
      hide PreflightTrace, OpenKeys, Scene.Refused, Scene.Runnable, Scene.InOrder, Scene.Prepare, Map;
      for i := 0 to |calls|
        invariant Valid() && state.start == s0.start && pool == []
        invariant results == scene.InOrder(scene.Refused(calls[..i]))
        invariant prepared == Map(scene.Prepare, scene.Runnable(calls[..i]))
        invariant since == s0.since + PreflightTrace(scene, calls[..i])
        invariant M().base == s0.mon.base && M().ended == s0.mon.ended + results
        invariant M().phase == Working(Work(scene.reply, i, results, OpenKeys(scene.Runnable(calls[..i]))))
      {
        prepared, results := PreflightNext(scene, calls, i, prepared, results, s0);
      }
      assert calls[..|calls|] == calls;
    }

    /** Waits for the `k`-th execution and reports it. */
    method Report(scene: Scene, ghost runs: seq<ToolCall>, prepared: Preparation, k: nat) returns (r: Message)
      requires Valid() && M().phase.Working? && k < |pool| && Started(scene, runs, pool)
      requires Fits(pool, M().phase.work.open) && SettledUpTo(pool, k)
      requires prepared == scene.Prepare(runs[k]) && M().phase.work.open == OpenKeys(runs[k..])
      modifies state, this`since, this`pool, this`schedule
      ensures Valid() && r == scene.Outcome(runs[k])
      ensures Advanced(old(Now()), Now(), OutcomeEvents(r))
      ensures |pool| == |runs| && Started(scene, runs, pool) && SettledUpTo(pool, k + 1)
      ensures Fits(pool, OpenKeys(runs[k + 1..]))
      ensures M().base == old(M().base) && M().ended == old(M().ended) + [r]
      ensures var w := old(M().phase.work);
        M().phase == Working(w.(done := w.done + [r], open := OpenKeys(runs[k + 1..])))
    {
      hide AgentState.InRun, AgentState.Mon, Recorded, OnPlot, Advanced, Progress, Scene.Prepare, Scene.Outcome,
        NextPhase, OpenKeys, Told, OutcomeEvents, ResultMessage, Started, SettledUpTo, Fits, Further,
        Scene.Execution, Scene.Runs;
      ghost var s0 := Now();
      PreparedIs(scene, runs, pool, k);
      AwaitExecution(k);
      ghost var s1 := Now();
      ReadyToReport(scene, runs, s0.pool, pool, k, M().phase.work.open);
      r := FinalizeExecutedToolCall(scene, prepared, pool[k].run.outcome);
      StillStarted(scene, runs, s1.pool, pool, k + 1, M().phase.work.open);
      ProgressThenAdvanced(s0, s1, Now(), OutcomeEvents(r));
    }

    /** Starts every prepared call, with no partial result sent yet. */
    method StartAll(scene: Scene, ghost runs: seq<ToolCall>, prepared: seq<Preparation>)
      requires Valid() && M().phase.Working? && prepared == Map(scene.Prepare, runs)
      requires M().phase.work.open == OpenKeys(runs) && forall c :: c in runs ==> scene.Runs(c)
      modifies this`pool
      ensures Valid() && Started(scene, runs, pool) && Fits(pool, OpenKeys(runs))
      ensures NothingSent(pool)
    {
      hide AgentState.InRun, AgentState.Mon, Recorded, OnPlot;
      forall j | 0 <= j < |prepared| ensures prepared[j].Prepared? && prepared[j].call == runs[j] {
        assert runs[j] in runs && prepared[j] == scene.Prepare(runs[j]);
      }
      pool := seq(|prepared|, j requires 0 <= j < |prepared| && prepared[j].Prepared? =>
        Execution(prepared[j].call, prepared[j].tool.execute(prepared[j].call.id, prepared[j].args, scene.context), 0));
      forall j | 0 <= j < |runs| ensures pool[j].K() in OpenKeys(runs) {
        assert CallKeys(runs)[j] == pool[j].K();
      }
    }

    /** Waits for the `k`-th execution, after those before it have been reported. */
    method ReportNext(scene: Scene, ghost runs: seq<ToolCall>, prepared: seq<Preparation>, k: nat, ghost s0: Snapshot,
                      ghost refusals: seq<Message>, before: seq<Message>)
      returns (results: seq<Message>)
      requires Valid() && k < |pool| == |runs| == |prepared| && Started(scene, runs, pool)
      requires prepared[k] == scene.Prepare(runs[k])
      requires SettledUpTo(pool, k) && Fits(pool, OpenKeys(runs[k..])) && before == scene.InOrder(runs[..k])
      requires Advanced(s0, Now(), ReportTrace(scene, runs[..k]))
      requires M().base == s0.mon.base && M().ended == s0.mon.ended + before
      requires M().phase ==
        Working(Work(scene.reply, |scene.reply.ToolCalls()|, refusals + before, OpenKeys(runs[k..])))
      modifies state, this`since, this`pool, this`schedule
      ensures Valid() && |pool| == |runs| && Started(scene, runs, pool)
      ensures SettledUpTo(pool, k + 1) && Fits(pool, OpenKeys(runs[k + 1..])) && results == scene.InOrder(runs[..k + 1])
      ensures Advanced(s0, Now(), ReportTrace(scene, runs[..k + 1]))
      ensures M().base == s0.mon.base && M().ended == s0.mon.ended + results
      ensures M().phase ==
        Working(Work(scene.reply, |scene.reply.ToolCalls()|, refusals + results, OpenKeys(runs[k + 1..])))
    {
      hide AgentState.InRun, AgentState.Mon, Recorded, OnPlot, Advanced, Progress, Scene.Prepare, Scene.Outcome,
        NextPhase;
      hide ReportTrace, OpenKeys, Scene.InOrder, Scene.Execution, Started, SettledUpTo, Fits, OutcomeEvents;
      ghost var s1 := Now();
      var r := Report(scene, runs, prepared[k], k);
      ReportSnoc(scene, runs, k);
      AdvancedTransitive(s0, s1, Now(), ReportTrace(scene, runs[..k]), OutcomeEvents(r));
      Regroup(s0.mon.ended, before, [r]);
      Regroup(refusals, before, [r]);
      results := before + [r];
    }

    method ReportAll(scene: Scene, ghost runs: seq<ToolCall>, prepared: seq<Preparation>, refusals: seq<Message>)
      returns (results: seq<Message>)
      requires Valid() && prepared == Map(scene.Prepare, runs) && Started(scene, runs, pool)
      requires Fits(pool, OpenKeys(runs))
      requires M().phase == Working(Work(scene.reply, |scene.reply.ToolCalls()|, refusals, OpenKeys(runs)))
      modifies state, this`since, this`pool, this`schedule
      ensures Valid() && results == scene.InOrder(runs)
      ensures Advanced(old(Now()), Now(), ReportTrace(scene, runs))
      ensures Started(scene, runs, pool) && SettledUpTo(pool, |runs|)
      ensures M().base == old(M().base) && M().ended == old(M().ended) + results
      ensures M().phase == Working(Work(scene.reply, |scene.reply.ToolCalls()|, refusals + results, multiset{}))
    {
      hide AgentState.InRun, AgentState.Mon, Recorded, OnPlot, Advanced, Progress, Scene.Prepare, Scene.Outcome,
        NextPhase, ReportTrace, OpenKeys, Scene.InOrder, Map, Scene.Execution, Started, SettledUpTo, Fits,
        OutcomeEvents, CallsOf;
      results := [];
      ghost var s0 := Now();
      NothingReported(scene, runs, prepared, s0);
      assert M().ended + [] == M().ended && refusals + [] == refusals;
      for k := 0 to |prepared|
        invariant Valid() && |pool| == |runs| == |prepared| && Started(scene, runs, pool)
        invariant SettledUpTo(pool, k) && Fits(pool, OpenKeys(runs[k..]))
        invariant results == scene.InOrder(runs[..k])
        invariant Advanced(s0, Now(), ReportTrace(scene, runs[..k]))
        invariant M().base == s0.mon.base && M().ended == s0.mon.ended + results
        invariant M().phase ==
          Working(Work(scene.reply, |scene.reply.ToolCalls()|, refusals + results, OpenKeys(runs[k..])))
      {
        PreparedAt(scene, runs, prepared, k);
        results := ReportNext(scene, runs, prepared, k, s0, refusals, results);
      }
      assert runs[..|runs|] == runs && runs[|runs|..] == [];
      NoOpenKeys();
    }

    method ExecuteToolCallsParallel(scene: Scene, calls: seq<ToolCall>) returns (results: seq<Message>)
      requires Valid() && pool == [] && since == []
      requires M().phase == Working(Work(scene.reply, 0, [], multiset{})) && calls == scene.reply.ToolCalls()
      modifies state, this`since, this`pool, this`schedule
      ensures Valid() && state.start == old(state.start)
      ensures results == scene.RefusedFirst(calls)
      ensures ConcurrentTrace(scene, calls, since)
      ensures M().base == old(M().base) && M().ended == old(M().ended) + results
      ensures M().phase == Working(Work(scene.reply, |calls|, results, multiset{}))
    {
      hide AgentState.InRun, AgentState.Mon, Recorded, OnPlot;
      ghost var ended0 := M().ended;
      ghost var runs := scene.Runnable(calls);
      var prepared, refusals := PreflightAll(scene, calls);
      StartAll(scene, runs, prepared);
      ghost var s1 := Now();
      var reported := ReportAll(scene, runs, prepared, refusals);
      results := refusals + reported;
      Regroup(ended0, refusals, reported);
      AllTold(scene, calls, runs, s1, Now());
    }

    /** Executes the tool calls of a reply, one after the other or concurrently. */
    method ExecuteToolCalls(reply: AssistantMessage, schedule: seq<Step>) returns (results: seq<Message>)
      requires Valid() && M().phase == Working(Work(reply, 0, [], multiset{})) && since == []
      modifies state, this`since, this`pool, this`schedule
      ensures Valid() && state.start == old(state.start)
      ensures results == ToolResults(Scene(config, context, reply)) && ToolsShown(Scene(config, context, reply), since)
      ensures M().base == old(M().base) && M().ended == old(M().ended) + results
      ensures M().phase == Working(Work(reply, |reply.ToolCalls()|, results, multiset{}))
    {
      hide AgentState.InRun, AgentState.Mon, Recorded, OnPlot, ConcurrentTrace;
      pool, this.schedule := [], schedule;
      var scene := Scene(config, context, reply);
      if config.sequential {
        results := ExecuteToolCallsSequential(scene, reply.ToolCalls());
        assert [] + since == since;
      } else {
        results := ExecuteToolCallsParallel(scene, reply.ToolCalls());
      }
    }

    // -------------------------------------------------------------- Streaming a reply

    /** The loop's arrays are the transcript as the ended messages tell it. */
    ghost predicate InStep()
      reads this, state, state.steeringQueue, state.followUpQueue
      requires Valid()
    {
      context == M().Transcript() && newMessages == M().ended
    }

    /** Streams one reply into the context, whose last message it is from its start on. */
    method StreamAssistantResponse(reply: Reply) returns (r: Result<AssistantMessage>)
      requires Valid() && AtMostOneStart(reply.events)
      requires M().phase == Injecting([], false) && context == M().Transcript()
      modifies state, this`asked, this`streamed, this`since, this`context
      ensures Valid() && state.start == old(state.start) && M().base == old(M().base)
      ensures r == FinalReply(reply)
      ensures asked == old(context) && streamed == StreamTrace(reply) && since == []
      ensures r.Ok? ==> context == old(context) + [Assistant(r.value)]
      ensures r.Ok? ==> M().ended == old(M().ended) + [Assistant(r.value)]
      ensures r.Ok? ==>
        M().phase == if r.value.Failed() then Failing(r.value) else Working(Work(r.value, 0, [], multiset{}))
      ensures r.Err? ==> M().ended == old(M().ended) && (M().phase.Asked? || M().phase.Streaming?)
    {
      hide AgentState.InRun, AgentState.Mon, Recorded, OnPlot, StreamTrace, FinalReply, Showing, Closing,
        LastPartial, AtMostOneStart;
      SendRequest();
      var terminal, addedPartial, ps := ShowEvents(reply);
      if terminal.None? && reply.tail.Threw? {
        r := Err(reply.tail.error);
        NothingCloses(ps, reply.tail.error);
      } else {
        var message := if terminal.Some? then terminal.value else reply.tail.message;
        EndMessage(message, addedPartial, ps);
        r := Ok(message);
      }
      CloseStream();
    }

    /** Shows the events of a stream until a terminal one. */
    method ShowEvents(reply: Reply)
      returns (terminal: Option<AssistantMessage>, addedPartial: bool, ghost ps: seq<AssistantMessage>)
      requires Valid() && AtMostOneStart(reply.events)
      requires M().phase.Asked? && context == M().Transcript() && since == []
      modifies state, this`since, this`context
      ensures Valid() && state.start == old(state.start)
      ensures M() == old(M()).(phase := if addedPartial then Streaming else Asked)
      ensures addedPartial == (ps != [])
      ensures context == old(context) + LastPartial(ps) && since == Showing(ps)
      ensures FinalReply(reply) ==
        if terminal.Some? then Ok(terminal.value)
        else if reply.tail.EndedWith? then Ok(reply.tail.message) else Err(reply.tail.error)
      ensures StreamTrace(reply) == Showing(ps) + Closing(ps, FinalReply(reply))
    {
      hide AgentState.InRun, AgentState.Mon, Recorded, OnPlot, StreamTrace, FinalReply, Closing, Partials,
        LastPartial, Showing, AtMostOneStart;
      var events := reply.events;
      addedPartial, terminal, ps := false, None, [];
      NothingShown(events, context);
      for i := 0 to |events|
        invariant Valid() && state.start == old(state.start)
        invariant forall j :: 0 <= j < i ==> !events[j].Terminal?
        invariant ps == Partials(events[..i]) && terminal.None?
        invariant addedPartial == (ps != [])
        invariant M() == old(M()).(phase := if addedPartial then Streaming else Asked)
        invariant context == M().Transcript() + LastPartial(ps) && since == Showing(ps)
      {
        PartialsNext(events, i);
        if events[i].Terminal? {
          TraceAtTerminal(reply, i);
          terminal := Some(events[i].message);
          return;
        }
        addedPartial, ps := ShowEvent(events[i], addedPartial, ps);
      }
      TraceWithoutTerminal(reply);
      assert events[..|events|] == events;
    }

    /** Shows a start or, once the reply has started, its next state. */
    method ShowEvent(event: StreamEvent, addedPartial: bool, ghost ps: seq<AssistantMessage>)
      returns (added: bool, ghost ps': seq<AssistantMessage>)
      requires Valid() && M().phase == (if addedPartial then Streaming else Asked)
      requires addedPartial == (ps != []) && !event.Terminal? && (event.Start? ==> !addedPartial)
      requires context == M().Transcript() + LastPartial(ps) && since == Showing(ps)
      modifies state, this`since, this`context
      ensures Valid() && state.start == old(state.start)
      ensures M() == old(M()).(phase := if added then Streaming else Asked)
      ensures ps' == if event.Start? then [event.partial] else if ps == [] then [] else ps + [event.partial]
      ensures added == (ps' != [])
      ensures context == M().Transcript() + LastPartial(ps') && since == Showing(ps')
    {
      hide AgentState.InRun, AgentState.Mon, Recorded, OnPlot;
      added, ps' := addedPartial, ps;
      match event
      case Start(partial) =>
        ShowStart(partial);
        added, ps' := true, [partial];
      case Delta(partial) =>
        if addedPartial {
          ShowDelta(partial, ps);
          ps' := ps + [partial];
        }
    }

    method ShowStart(partial: AssistantMessage)
      requires Valid() && M().phase.Asked? && context == M().Transcript() && since == []
      modifies state, this`since, this`context
      ensures Valid() && state.start == old(state.start) && M() == old(M()).(phase := Streaming)
      ensures context == old(context) + [Assistant(partial)] == old(context) + LastPartial([partial])
      ensures since == Showing([partial])
    {
      hide AgentState.InRun, AgentState.Mon, Recorded, OnPlot;
      context := context + [Assistant(partial)];
      Emit(MessageStart(Assistant(partial)));
      assert Showing([partial]) == [MessageStart(Assistant(partial))];
      assert M().ended + [] == M().ended;
    }

    method ShowDelta(partial: AssistantMessage, ghost ps: seq<AssistantMessage>)
      requires Valid() && M().phase.Streaming?
      requires ps != [] && context == M().Transcript() + LastPartial(ps) && since == Showing(ps)
      modifies state, this`since, this`context
      ensures Valid() && state.start == old(state.start) && M() == old(M())
      ensures context == M().Transcript() + LastPartial(ps + [partial]) && since == Showing(ps + [partial])
    {
      hide AgentState.InRun, AgentState.Mon, Recorded, OnPlot;
      context := context[|context| - 1 := Assistant(partial)];
      assert context == M().Transcript() + [Assistant(partial)];
      ShowingSnoc(ps, partial);
      Emit(MessageUpdate(Assistant(partial)));
    }

    /** Asks the model, with the context as it is. */
    ghost method SendRequest()
      requires Valid() && M().phase == Injecting([], false) && context == M().Transcript()
      modifies state`log, this`asked, this`streamed, this`since
      ensures Valid() && M() == old(M()).(phase := Asked)
      ensures asked == context && streamed == [] && since == []
    {
      hide AgentState.InRun, AgentState.Mon, Accept, Records, Plotted;
      RequestLogged();
      asked, streamed, since := context, [], [];
      state.Note(Request(context));
      state.MonitorIsAccepted();
    }

    lemma RequestLogged()
      requires Valid() && M().phase == Injecting([], false) && context == M().Transcript()
      ensures var log := state.log + [Request(context)];
        && Accept(state.start.base, state.start.prompts, log) == Some(M().(phase := Asked))
        && Records(log, context, [] + [], turnsEnded)
        && Plotted(plot, log, skipInitialSteeringPoll, state.Queue(Steering), state.Queue(FollowUp))
    {
      AcceptSnoc(state.start.base, state.start.prompts, state.log, Request(context));
      EntryRecorded(plot, state.log, Request(context), skipInitialSteeringPoll, asked, streamed + since, turnsEnded,
                    state.Queue(Steering), state.Queue(FollowUp));
    }

    /** The stream is over: what it showed is what has been shown so far. */
    ghost method CloseStream()
      requires Valid() && streamed == []
      modifies this`streamed, this`since
      ensures Valid() && M() == old(M()) && streamed == old(since) && since == []
    {
      hide AgentState.InRun, AgentState.Mon, OnPlot, Records;
      assert [] + since == since + [];
      streamed, since := since, [];
    }

    method EmitReply(message: AssistantMessage)
      requires Valid() && M().phase.Streaming? && context == M().Transcript() + [Assistant(message)]
      modifies state, this`since
      ensures Valid() && state.start == old(state.start) && M().base == old(M().base)
      ensures M().ended == old(M().ended) + [Assistant(message)]
      ensures M().phase == if message.Failed() then Failing(message) else Working(Work(message, 0, [], multiset{}))
      ensures since == old(since) + [MessageEnd(Assistant(message))]
    {
      hide AgentState.InRun, AgentState.Mon, Recorded, OnPlot;
      Emit(MessageEnd(Assistant(message)));
    }

    /** Puts the final reply in the place of the partial one, or at the end. */
    method EndMessage(message: AssistantMessage, addedPartial: bool, ghost ps: seq<AssistantMessage>)
      requires Valid() && M().phase == if addedPartial then Streaming else Asked
      requires addedPartial == (ps != [])
      requires context == M().Transcript() + LastPartial(ps) && since == Showing(ps)
      modifies state, this`since, this`context
      ensures Valid() && state.start == old(state.start) && M().base == old(M().base)
      ensures M().ended == old(M().ended) + [Assistant(message)]
      ensures context == old(M().Transcript()) + [Assistant(message)]
      ensures M().phase == if message.Failed() then Failing(message) else Working(Work(message, 0, [], multiset{}))
      ensures since == Showing(ps) + Closing(ps, Ok(message))
    {
      hide AgentState.InRun, AgentState.Mon, Recorded, OnPlot;
      if addedPartial {
        context := context[|context| - 1 := Assistant(message)];
      } else {
        assert context == M().Transcript() + [] == M().Transcript();
        ShowStart(message);
      }
      assert context == M().Transcript() + [Assistant(message)];
      EmitReply(message);
      ClosingParts(ps, message);
    }

    // -------------------------------------------------------------- Injecting messages

    method EmitMessage(message: Message)
      requires Valid() && M().phase.Injecting? && M().phase.queue != [] && M().phase.queue[0] == message
      modifies state, this`since
      ensures Valid() && state.start == old(state.start)
      ensures M() == Monitor(old(M().base), Injecting(old(M().phase.queue)[1..], old(M().phase.first)),
                             old(M().ended) + [message])
    {
      hide AgentState.InRun, AgentState.Mon, Recorded, OnPlot;
      Emit(MessageStart(message));
      Emit(MessageEnd(message));
    }

    /** Announces the prompts, which are in the arrays already. */
    method EmitPrompts(prompts: seq<Message>)
      requires Valid() && M().phase == Injecting(prompts, true)
      modifies state, this`since
      ensures Valid() && state.start == old(state.start)
      ensures M() == Monitor(old(M().base), Injecting([], true), old(M().ended) + prompts)
    {
      hide AgentState.InRun, AgentState.Mon, Recorded, OnPlot;
      for i := 0 to |prompts|
        invariant Valid() && state.start == old(state.start)
        invariant M() == Monitor(old(M().base), Injecting(prompts[i..], true), old(M().ended) + prompts[..i])
      {
        EmitMessage(prompts[i]);
        assert prompts[..i + 1] == prompts[..i] + [prompts[i]];
        Regroup(old(M().ended), prompts[..i], [prompts[i]]);
      }
      assert prompts[..|prompts|] == prompts;
    }

    /** Puts the pending messages in front of the model. */
    method InjectPending(pendingMessages: seq<Message>)
      requires Valid() && InStep() && M().phase == Injecting(pendingMessages, false)
      modifies state, this`since, this`context, this`newMessages
      ensures Valid() && InStep() && state.start == old(state.start)
      ensures M() == Monitor(old(M().base), Injecting([], false), old(M().ended) + pendingMessages)
      ensures context == old(context) + pendingMessages && newMessages == old(newMessages) + pendingMessages
    {
      hide AgentState.InRun, AgentState.Mon, Recorded, OnPlot;
      for i := 0 to |pendingMessages|
        invariant Valid() && InStep() && state.start == old(state.start)
        invariant M() ==
          Monitor(old(M().base), Injecting(pendingMessages[i..], false), old(M().ended) + pendingMessages[..i])
        invariant context == old(context) + pendingMessages[..i]
      {
        var message := pendingMessages[i];
        EmitMessage(message);
        context := context + [message];
        newMessages := newMessages + [message];
        assert pendingMessages[..i + 1] == pendingMessages[..i] + [message];
        Regroup(old(M().ended), pendingMessages[..i], [message]);
        Regroup(old(context), pendingMessages[..i], [message]);
      }
      assert pendingMessages[..|pendingMessages|] == pendingMessages;
    }

    // -------------------------------------------------------------- One turn

    /** The stream of this turn has been shown, has given `reply`, and nothing has come after it. */
    ghost predicate Replied(reply: AssistantMessage)
      reads this
    {
      var stream := plot.world.Turn(turnsEnded).reply;
      FinalReply(stream) == Ok(reply) && streamed == StreamTrace(stream) && context == asked + [Assistant(reply)]
    }

    /** Everything of this turn has been done as the plot has it. */
    ghost predicate TurnDone(reply: AssistantMessage, toolResults: seq<Message>)
      reads this
    {
      var stream := plot.world.Turn(turnsEnded).reply;
      var scene := Scene(config, asked + [Assistant(reply)], reply);
      && FinalReply(stream) == Ok(reply) && streamed == StreamTrace(stream)
      && if reply.Failed() then toolResults == [] && since == []
         else toolResults == ToolResults(scene) && ToolsShown(scene, since)
    }

    method EndTurn(reply: AssistantMessage, toolResults: seq<Message>)
      requires Valid() && InStep() && TurnDone(reply, toolResults)
      requires M().phase == if reply.Failed() then Failing(reply)
                            else Working(Work(reply, |reply.ToolCalls()|, toolResults, multiset{}))
      requires reply.Failed() ==> toolResults == []
      modifies state, this`since, this`turnsEnded
      ensures Valid() && InStep() && state.start == old(state.start) && turnsEnded == old(turnsEnded) + 1
      ensures M() == old(M()).(phase := if reply.Failed() then Stopping else Settled(reply.ToolCalls() != []))
    {
      hide AgentState.InRun, AgentState.Mon, Recorded, OnPlot, TurnDone, TurnFollows;
      TurnDoneFollows(reply, toolResults);
      TurnEndAllowed(M().phase, reply, toolResults);
      EmitTurnEnd(Assistant(reply), toolResults);
      assert old(M().ended) + [] == old(M().ended);
    }

    method EmitTurnEnd(message: Message, toolResults: seq<Message>)
      requires Valid() && NextPhase(M().phase, TurnEnd(message, toolResults)).Some?
      requires SnapshotAgrees(M(), Entry.Emit(TurnEnd(message, toolResults), context, newMessages))
      requires TurnFollows(plot, state.log, message, toolResults)
      modifies state, this`since, this`turnsEnded
      ensures Valid() && state.start == old(state.start) && turnsEnded == old(turnsEnded) + 1
      ensures M() == Monitor(old(M().base), NextPhase(old(M().phase), TurnEnd(message, toolResults)).value,
                             old(M().ended) + [])
    {
      hide TurnFollows, NextPhase, SnapshotAgrees, AgentState.InRun, AgentState.Mon, Accept, Records, Plotted;
      EventLogged(TurnEnd(message, toolResults));
      since, turnsEnded := since + [TurnEnd(message, toolResults)], turnsEnded + 1;
      state.ProcessEvents(TurnEnd(message, toolResults), context, newMessages);
      state.MonitorIsAccepted();
    }

    lemma TurnDoneFollows(reply: AssistantMessage, toolResults: seq<Message>)
      requires Valid() && TurnDone(reply, toolResults)
      ensures TurnFollows(plot, state.log, Assistant(reply), toolResults)
    {
      hide AgentState.InRun, LastAsked, SinceRequest, TurnsEnded, ToolResults, ToolsShown, StreamTrace, FinalReply,
        Follows, Left, Polled;
      assert (streamed + since)[|streamed|..] == since;
    }

    method EndRun()
      requires Valid() && InStep() && M().phase.Stopping?
      modifies state, this`since
      ensures Valid() && InStep() && state.start == old(state.start)
      ensures M() == old(M()).(phase := Over(false))
    {
      hide AgentState.InRun, AgentState.Mon, Recorded, OnPlot;
      Emit(AgentEnd(newMessages));
      assert M().ended + [] == M().ended;
    }

    /** Runs the tool calls of a reply, if it has any, and ends its turn. */
    method FinishTurn(reply: AssistantMessage, schedule: seq<Step>) returns (hasMoreToolCalls: bool)
      requires Valid() && InStep() && M().phase == Working(Work(reply, 0, [], multiset{}))
      requires Replied(reply) && since == [] && !reply.Failed()
      modifies state, this`since, this`pool, this`schedule, this`context, this`newMessages, this`turnsEnded
      ensures Valid() && InStep() && state.start == old(state.start) && M().base == old(M().base)
      ensures hasMoreToolCalls == (reply.ToolCalls() != []) && M().phase == Settled(hasMoreToolCalls)
      ensures context == old(context) + ToolResults(Scene(config, old(context), reply))
      ensures turnsEnded == old(turnsEnded) + 1
    {
      hide AgentState.InRun, AgentState.Mon, Recorded, OnPlot, ToolResults, ToolsShown, FinalReply, StreamTrace;
      var toolResults;
      hasMoreToolCalls, toolResults := RunToolCalls(reply, schedule);
      context := context + toolResults;
      newMessages := newMessages + toolResults;
      EndTurn(reply, toolResults);
    }

    method RunToolCalls(reply: AssistantMessage, schedule: seq<Step>)
      returns (hasMoreToolCalls: bool, toolResults: seq<Message>)
      requires Valid() && M().phase == Working(Work(reply, 0, [], multiset{})) && since == []
      modifies state, this`since, this`pool, this`schedule
      ensures Valid() && state.start == old(state.start)
      ensures hasMoreToolCalls == (reply.ToolCalls() != [])
      ensures toolResults == ToolResults(Scene(config, context, reply))
      ensures ToolsShown(Scene(config, context, reply), since)
      ensures M().base == old(M().base) && M().ended == old(M().ended) + toolResults
      ensures M().phase == Working(Work(reply, |reply.ToolCalls()|, toolResults, multiset{}))
    {
      hide AgentState.InRun, AgentState.Mon, Recorded, OnPlot, ToolsShown, ToolResults;
      var toolCalls := reply.ToolCalls();
      hasMoreToolCalls := |toolCalls| > 0;
      if hasMoreToolCalls {
        toolResults := ExecuteToolCalls(reply, schedule);
      } else {
        NoCallsNoResults(Scene(config, context, reply));
        toolResults := [];
        assert M().ended + [] == M().ended;
      }
    }

    /** What a turn adds to the context it was asked with: the reply and the results of its tools. */
    ghost function TurnMessages(asked: seq<Message>, reply: AssistantMessage): seq<Message> {
      [Assistant(reply)] +
      if reply.Failed() then [] else ToolResults(Scene(config, asked + [Assistant(reply)], reply))
    }

    /** The model's stream has thrown `error` after all that it has shown. */
    ghost predicate Threw(error: string)
      reads this, state, state.steeringQueue, state.followUpQueue
      requires Valid()
    {
      && (M().phase.Asked? || M().phase.Streaming?)
      && CrashFollows(plot, state.log, FailureMessage(error, plot.world.aborted))
    }

    lemma StreamThrew(error: string)
      requires Valid() && since == [] && (M().phase.Asked? || M().phase.Streaming?)
      requires var stream := plot.world.Turn(turnsEnded).reply;
        FinalReply(stream) == Err(error) && streamed == StreamTrace(stream)
      ensures Threw(error)
    {
      assert streamed + [] == streamed;
    }

    /** One turn, with the next reply of the world. */
    method TakeTurn(pendingMessages: seq<Message>, reply: Reply, schedule: seq<Step>)
      returns (r: Result<AssistantMessage>, hasMoreToolCalls: bool)
      requires Valid() && InStep() && AtMostOneStart(reply.events)
      requires M().phase == Injecting(pendingMessages, false) && reply == plot.world.Turn(turnsEnded).reply
      modifies state, this`asked, this`streamed, this`since, this`pool, this`schedule, this`context, this`newMessages,
        this`turnsEnded
      ensures Valid() && state.start == old(state.start) && M().base == old(M().base)
      ensures r == FinalReply(reply) && newMessages == M().ended
      ensures r.Err? ==> Threw(r.error) && newMessages == old(newMessages) + pendingMessages
      ensures r.Ok? ==> InStep() && turnsEnded == old(turnsEnded) + 1
      ensures r.Ok? ==>
        context == old(context) + pendingMessages + TurnMessages(old(context) + pendingMessages, r.value)
      ensures r.Ok? && r.value.Failed() ==> M().phase == Over(false)
      ensures r.Ok? && !r.value.Failed() ==>
                M().phase == Settled(hasMoreToolCalls) && hasMoreToolCalls == (r.value.ToolCalls() != [])
    {
      hide AgentState.InRun, AgentState.Mon, Recorded, OnPlot, ToolResults, FinalReply, StreamTrace, AtMostOneStart,
        CrashFollows;
      InjectPending(pendingMessages);
      ghost var question := context;
      r := StreamAssistantResponse(reply);
      hasMoreToolCalls := false;
      if r.Ok? {
        hasMoreToolCalls := EndReply(r.value, schedule);
        Regroup(question, [Assistant(r.value)],
          if r.value.Failed() then [] else ToolResults(Scene(config, question + [Assistant(r.value)], r.value)));
      } else {
        StreamThrew(r.error);
      }
    }

    /** What comes after a reply: the end of the run if it failed, else its tool calls. */
    method EndReply(reply: AssistantMessage, schedule: seq<Step>) returns (hasMoreToolCalls: bool)
      requires Valid() && context == M().Transcript() && newMessages + [Assistant(reply)] == M().ended
      requires M().phase == if reply.Failed() then Failing(reply) else Working(Work(reply, 0, [], multiset{}))
      requires Replied(reply) && since == []
      modifies state, this`since, this`pool, this`schedule, this`context, this`newMessages, this`turnsEnded
      ensures Valid() && InStep() && state.start == old(state.start) && M().base == old(M().base)
      ensures reply.Failed() ==> M().phase == Over(false)
      ensures !reply.Failed() ==>
        M().phase == Settled(hasMoreToolCalls) && hasMoreToolCalls == (reply.ToolCalls() != [])
      ensures context == old(context) + if reply.Failed() then [] else ToolResults(Scene(config, old(context), reply))
      ensures turnsEnded == old(turnsEnded) + 1
    {
      hide AgentState.InRun, AgentState.Mon, Recorded, OnPlot, ToolResults, ToolsShown, FinalReply, StreamTrace;
      newMessages := newMessages + [Assistant(reply)];
      hasMoreToolCalls := false;
      if reply.Failed() {
        EndTurn(reply, []);
        EndRun();
        assert context + [] == context;
      } else {
        hasMoreToolCalls := FinishTurn(reply, schedule);
      }
    }

    // -------------------------------------------------------------- Polling

    /** Polls the steering queue, after others have performed `ops`; the first poll may be skipped. */
    method GetSteeringMessages(ops: seq<QueueOp>) returns (drained: seq<Message>)
      requires Valid() && (M().phase == Injecting([], true) || M().phase.Settled?)
      requires ops == plot.world.OpsBefore(turnsEnded, Steering)
      modifies state`log, state.steeringQueue, state.followUpQueue, this`skipInitialSteeringPoll
      ensures Valid() && state.log == old(state.log) + [Poll(Steering, drained)]
      ensures var found := old(state.Queue(Steering)).After(Steering, ops);
        if old(skipInitialSteeringPoll) then drained == [] && state.Queue(Steering) == found
        else drained == found.Offer() && state.Queue(Steering) == found.Drained()
      ensures state.Queue(FollowUp) == old(state.Queue(FollowUp)).After(FollowUp, ops)
      ensures M() == old(M()).(phase := AfterPoll(old(M().phase), drained))
    {
      hide AgentState.InRun, AgentState.Mon, Accept, Records, Plotted, QueueState.After, QueueState.Offer,
        QueueState.Drained, AfterPoll;
      PollLogged(Steering, ops);
      var skip := skipInitialSteeringPoll;
      skipInitialSteeringPoll := false;
      drained := state.PollQueue(Steering, ops, skip);
      state.MonitorIsAccepted();
    }

    /** A poll that takes what is found after the operations of others leaves the run valid. */
    lemma PollLogged(source: Source, ops: seq<QueueOp>)
      requires Valid() && ops == plot.world.OpsBefore(turnsEnded, source)
      requires if source.Steering? then M().phase == Injecting([], true) || M().phase.Settled? else M().phase.Quiet?
      ensures var steering := state.Queue(Steering).After(Steering, ops);
        var followUp := state.Queue(FollowUp).After(FollowUp, ops);
        var skips := source.Steering? && skipInitialSteeringPoll;
        var drained := if skips then [] else if source.Steering? then steering.Offer() else followUp.Offer();
        var log := state.log + [Poll(source, drained)];
        && Accept(state.start.base, state.start.prompts, log) == Some(M().(phase := AfterPoll(M().phase, drained)))
        && Records(log, asked, streamed + since, turnsEnded)
        && Plotted(plot, log, false, if source.Steering? && !skips then steering.Drained() else steering,
                   if source.FollowUp? then followUp.Drained() else followUp)
        && (source.FollowUp? ==> !skipInitialSteeringPoll)
    {
      var steering := state.Queue(Steering).After(Steering, ops);
      var followUp := state.Queue(FollowUp).After(FollowUp, ops);
      var skips := source.Steering? && skipInitialSteeringPoll;
      var drained := if skips then [] else if source.Steering? then steering.Offer() else followUp.Offer();
      if source.FollowUp? {
        PolledBeforeQuiet();
      }
      PollAllowed(M(), source, drained);
      hide AgentState.Reduced, Accept, NextPhase, Next, AfterPoll, AfterOps, ModeAfter, Records, Plotted;
      AcceptSnoc(state.start.base, state.start.prompts, state.log, Poll(source, drained));
      PollRecorded(plot, state.log, Poll(source, drained), skipInitialSteeringPoll, asked, streamed + since, turnsEnded,
                   state.Queue(Steering), state.Queue(FollowUp));
    }

    /** When the loop would stop, its first poll is over. */
    lemma PolledBeforeQuiet()
      requires Valid() && M().phase.Quiet?
      ensures !skipInitialSteeringPoll
    {
      hide Follows, Accept, Left, LastAsked, SinceRequest, TurnsEnded;
      FirstPollAlong(plot, state.start.base, state.start.prompts, state.log);
    }

    /** Polls the follow-up queue, after others have performed `ops`. */
    method GetFollowUpMessages(ops: seq<QueueOp>) returns (drained: seq<Message>)
      requires Valid() && M().phase.Quiet? && ops == plot.world.OpsBefore(turnsEnded, FollowUp)
      modifies state`log, state.steeringQueue, state.followUpQueue
      ensures Valid() && state.log == old(state.log) + [Poll(FollowUp, drained)]
      ensures var found := old(state.Queue(FollowUp)).After(FollowUp, ops);
        drained == found.Offer() && state.Queue(FollowUp) == found.Drained()
      ensures state.Queue(Steering) == old(state.Queue(Steering)).After(Steering, ops)
      ensures M() == old(M()).(phase := AfterPoll(old(M().phase), drained))
    {
      hide AgentState.InRun, AgentState.Mon, Accept, Records, Plotted, QueueState.After, QueueState.Offer,
        QueueState.Drained, AfterPoll;
      PollLogged(FollowUp, ops);
      drained := state.PollQueue(FollowUp, ops, false);
      state.MonitorIsAccepted();
    }

    // -------------------------------------------------------------- The loop

    /** Where the loop stands when it is about to decide whether to take another turn. */
    ghost predicate AtDecision(firstTurn: bool, hasMoreToolCalls: bool, pendingMessages: seq<Message>)
      reads this, state, state.steeringQueue, state.followUpQueue
      requires Valid()
    {
      && InStep()
      && M().phase == if firstTurn then Injecting(pendingMessages, false)
                      else if hasMoreToolCalls || pendingMessages != [] then Between(pendingMessages)
                      else Quiet
    }

    /** Unless others have cleared a queue, what it has given out and what is left of it are what these
        were when the run began, and what has been enqueued since. */
    ghost predicate NoMessageDropped()
      reads state, state.steeringQueue, state.followUpQueue
    {
      && NothingDropped(plot.world, Steering, state.log, state.start.steered + plot.steering.messages,
                        state.steeringQueue.delivered + state.steeringQueue.messages)
      && NothingDropped(plot.world, FollowUp, state.log, state.start.followedUp + plot.followUp.messages,
                        state.followUpQueue.delivered + state.followUpQueue.messages)
    }

    lemma NothingIsDropped()
      requires Valid()
      ensures NoMessageDropped()
    {
      QueueKept(plot, Steering, state.log, state.start.steered);
      QueueKept(plot, FollowUp, state.log, state.start.followedUp);
      hide Follows, Left, Accept, Polled, NothingDropped;
    }

    method StartTurn(firstTurn: bool, pendingMessages: seq<Message>)
      requires Valid() && InStep()
      requires M().phase == if firstTurn then Injecting(pendingMessages, false) else Between(pendingMessages)
      modifies state, this`since
      ensures Valid() && InStep() && state.start == old(state.start)
      ensures M() == old(M()).(phase := Injecting(pendingMessages, false))
    {
      hide AgentState.InRun, AgentState.Mon, Recorded, OnPlot;
      if !firstTurn {
        Emit(TurnStart);
        assert M().ended + [] == M().ended;
      }
    }

    /** One round of the inner loop, with the `n`-th reply of the world. A stream that throws leaves the
        run unfinished. */
    method Round(world: World, n: nat, firstTurn: bool, pendingMessages: seq<Message>)
      returns (r: Result<AssistantMessage>, hasMoreToolCalls: bool, steering: seq<Message>)
      requires Valid() && InStep() && world == plot.world && world.StartsOnce() && n == turnsEnded
      requires M().phase == if firstTurn then Injecting(pendingMessages, false) else Between(pendingMessages)
      modifies this, state, state.steeringQueue, state.followUpQueue
      ensures Valid() && state.start == old(state.start) && M().base == old(M().base)
      ensures r == FinalReply(world.Turn(n).reply) && newMessages == M().ended
      ensures r.Err? ==> Threw(r.error)
      ensures r.Ok? ==> InStep() && turnsEnded == n + 1
      ensures r.Ok? && r.value.Failed() ==> M().phase == Over(false)
      ensures r.Ok? && !r.value.Failed() ==>
        AtDecision(false, hasMoreToolCalls, steering) && hasMoreToolCalls == (r.value.ToolCalls() != [])
    {
      hide AgentState.InRun, AgentState.Mon, Recorded, OnPlot, FinalReply, AtMostOneStart, ToolResults, Threw;
      var turn := world.Turn(n);
      StreamsStartOnce(world, n);
      StartTurn(firstTurn, pendingMessages);
      r, hasMoreToolCalls := TakeTurn(pendingMessages, turn.reply, turn.schedule);
      steering := [];
      if r.Ok? && !r.value.Failed() {
        steering := GetSteeringMessages(turn.beforeSteering);
      }
    }

    /** The inner loop: turns until there is nothing left to react to, or the run is stopped. `n` turns
        have been taken before and `n'` after it. */
    method RunTurns(world: World, n: nat, firstTurn: bool, pending: seq<Message>)
      returns (stopped: Option<Result<AssistantMessage>>, n': nat)
      requires Valid() && AtDecision(firstTurn, true, pending)
      requires world == plot.world && world.StartsOnce() && n == turnsEnded
      modifies this, state, state.steeringQueue, state.followUpQueue
      ensures Valid() && state.start == old(state.start) && M().base == old(M().base)
      ensures newMessages == M().ended
      ensures stopped.Some? && stopped.value.Err? ==> Threw(stopped.value.error)
      ensures stopped.Some? && stopped.value.Ok? ==> InStep() && M().phase == Over(false)
      ensures stopped.None? ==> AtDecision(false, false, []) && n < n' <= |world.turns| && n' == turnsEnded
      ensures OnPlot() && NoMessageDropped()
    {
      hide AgentState.InRun, AgentState.Mon, Recorded, OnPlot, FinalReply, Threw, NoMessageDropped;
      n', stopped := n, None;
      var first, pendingMessages, hasMoreToolCalls := firstTurn, pending, true;
      while hasMoreToolCalls || |pendingMessages| > 0
        invariant Valid() && state.start == old(state.start) && M().base == old(M().base)
        invariant AtDecision(first, hasMoreToolCalls, pendingMessages) && n' == turnsEnded
        invariant first ==> hasMoreToolCalls
        invariant n <= n' && (n == n' ==> hasMoreToolCalls) && (n < n' ==> n' <= |world.turns|)
        decreases |world.turns| - n'
      {
        var r;
        r, hasMoreToolCalls, pendingMessages := Round(world, n', first, pendingMessages);
        first := false;
        if r.Err? || r.value.Failed() {
          stopped := Some(r);
          NothingIsDropped();
          return;
        }
        RepliesEnd(world, n');
        n' := n' + 1;
      }
      NothingIsDropped();
    }

    method RunLoop(world: World) returns (error: Option<string>)
      requires Valid() && InStep() && M().phase == Injecting([], true)
      requires world == plot.world && world.StartsOnce() && turnsEnded == 0
      modifies this, state, state.steeringQueue, state.followUpQueue
      ensures Valid() && state.start == old(state.start) && M().base == old(M().base)
      ensures newMessages == M().ended
      ensures error.None? ==> InStep() && M().phase == Over(false)
      ensures error.Some? ==> Threw(error.value)
      ensures OnPlot() && NoMessageDropped()
    {
      hide AgentState.InRun, AgentState.Mon, Recorded, OnPlot, Threw, NoMessageDropped;
      var pendingMessages := GetSteeringMessages(world.beforeFirstPoll);
      error := RunUntilIdle(world, pendingMessages);
    }

    /** The outer loop: goes on while follow-up messages arrive after the agent would stop. */
    method RunUntilIdle(world: World, firstPending: seq<Message>) returns (error: Option<string>)
      requires Valid() && AtDecision(true, true, firstPending)
      requires world == plot.world && world.StartsOnce() && turnsEnded == 0
      modifies this, state, state.steeringQueue, state.followUpQueue
      ensures Valid() && state.start == old(state.start) && M().base == old(M().base)
      ensures newMessages == M().ended
      ensures error.None? ==> InStep() && M().phase == Over(false)
      ensures error.Some? ==> Threw(error.value)
      ensures OnPlot() && NoMessageDropped()
    {
      hide AgentState.InRun, AgentState.Mon, Recorded, OnPlot, Threw, NoMessageDropped;
      var n: nat, firstTurn, pendingMessages := 0, true, firstPending;
      while true
        invariant Valid() && state.start == old(state.start) && M().base == old(M().base)
        invariant AtDecision(firstTurn, true, pendingMessages) && n == turnsEnded <= |world.turns|
        decreases |world.turns| - n
      {
        var stopped;
        stopped, n := RunTurns(world, n, firstTurn, pendingMessages);
        if stopped.Some? {
          error := if stopped.value.Err? then Some(stopped.value.error) else None;
          return;
        }
        firstTurn := false;
        pendingMessages := GetFollowUpMessages(world.Turn(n - 1).beforeFollowUp);
        if |pendingMessages| == 0 {
          break;
        }
      }
      EndRun();
      NothingIsDropped();
      error := None;
    }

    // -------------------------------------------------------------- Entry points

    /** The arrays hold the transcript and the prompts, and nothing has been emitted. */
    ghost predicate Fresh(prompts: seq<Message>)
      reads this, state, state.steeringQueue, state.followUpQueue
      requires Valid()
    {
      && state.log == [] && M() == Monitor(state.start.base, Init(prompts), [])
      && context == state.start.base + prompts && newMessages == prompts && turnsEnded == 0
    }

    /** A run that has just been made for a state that has just begun one. */
    lemma IsFresh(prompts: seq<Message>)
      requires state.InRun() && state.log == [] && state.start.prompts == prompts
      requires context == state.start.base + prompts && newMessages == prompts
      requires asked == [] && streamed == [] && since == [] && turnsEnded == 0
      requires config == plot.config && skipInitialSteeringPoll == plot.skip
      requires state.Queue(Steering) == plot.steering && state.Queue(FollowUp) == plot.followUp
      ensures Valid() && Fresh(prompts)
    {
    }

    method BeginRun(ghost prompts: seq<Message>)
      requires Valid() && Fresh(prompts)
      modifies state, this`since
      ensures Valid() && state.start == old(state.start)
      ensures M() == Monitor(state.start.base, Injecting(prompts, true), [])
    {
      hide AgentState.InRun, AgentState.Mon, Recorded, OnPlot;
      Emit(AgentStart);
      Emit(TurnStart);
    }

    method RunAgentLoop(prompts: seq<Message>, world: World) returns (error: Option<string>)
      requires Valid() && Fresh(prompts) && world == plot.world && world.StartsOnce()
      modifies this, state, state.steeringQueue, state.followUpQueue
      ensures Valid() && state.start == old(state.start) && M().base == old(M().base)
      ensures newMessages == M().ended
      ensures error.None? ==> InStep() && M().phase == Over(false)
      ensures error.Some? ==> Threw(error.value)
      ensures OnPlot() && NoMessageDropped()
    {
      hide AgentState.InRun, AgentState.Mon, Recorded, OnPlot, Threw, NoMessageDropped;
      BeginRun(prompts);
      EmitPrompts(prompts);
      assert [] + prompts == prompts;
      error := RunLoop(world);
    }

    /** Continues from the transcript without new messages; refuses an empty transcript and one
        that ends with a reply. */
    method RunAgentLoopContinue(world: World) returns (error: Option<string>)
      requires Valid() && Fresh([]) && world == plot.world && world.StartsOnce()
      modifies this, state, state.steeringQueue, state.followUpQueue
      ensures Valid() && state.start == old(state.start) && M().base == old(M().base)
      ensures newMessages == M().ended
      ensures var refused := old(context) == [] || old(context)[|old(context)| - 1].Assistant?;
        if refused then error.Some? && state.log == [] && context == old(context)
        else if error.None? then InStep() && M().phase == Over(false)
        else Threw(error.value)
      ensures OnPlot() && NoMessageDropped()
    {
      hide AgentState.InRun, AgentState.Mon, Recorded, Threw, NoMessageDropped;
      if |context| == 0 {
        NothingIsDropped();
        return Some("Cannot continue: no messages in context");
      }
      if context[|context| - 1].Assistant? {
        NothingIsDropped();
        return Some("Cannot continue from message role: assistant");
      }
      hide OnPlot;
      BeginRun([]);
      error := RunLoop(world);
    }
  }

  /** Where the loop stands after a poll before the first turn, after a turn, or when it would stop. */
  function AfterPoll(p: Phase, drained: seq<Message>): Phase {
    if p.Injecting? then Injecting(drained, false)
    else if drained != [] || (p.Settled? && p.tools) then Between(drained)
    else if p.Settled? then Quiet
    else Stopping
  }

  lemma TurnEndAllowed(p: Phase, reply: AssistantMessage, toolResults: seq<Message>)
    requires p == if reply.Failed() then Failing(reply)
                  else Working(Work(reply, |reply.ToolCalls()|, toolResults, multiset{}))
    requires reply.Failed() ==> toolResults == []
    ensures NextPhase(p, TurnEnd(Assistant(reply), toolResults)) ==
            Some(if reply.Failed() then Stopping else Settled(reply.ToolCalls() != []))
  {
  }

  lemma PollAllowed(m: Monitor, source: Source, drained: seq<Message>)
    requires if source.Steering? then m.phase == Injecting([], true) || m.phase.Settled? else m.phase.Quiet?
    ensures Next(m, Poll(source, drained)) == Some(m.(phase := AfterPoll(m.phase, drained)))
  {
  }

  lemma NothingShown(events: seq<StreamEvent>, context: seq<Message>)
    ensures Partials(events[..0]) == [] && context + LastPartial([]) == context && Showing([]) == []
  {
  }

  function LastPartial(ps: seq<AssistantMessage>): seq<Message> {
    if ps == [] then [] else [Assistant(ps[|ps| - 1])]
  }

  lemma StreamsStartOnce(world: World, n: nat)
    requires world.StartsOnce()
    ensures AtMostOneStart(world.Turn(n).reply.events)
  {
    if n < |world.turns| {
      assert world.turns[n] in world.turns;
    }
  }

  /** When the script is used up, there is no reply. */
  lemma RepliesEnd(world: World, n: nat)
    requires FinalReply(world.Turn(n).reply).Ok?
    ensures n < |world.turns|
  {
    NoReplyThrows();
  }

  // ---------------------------------------------------------------- Keeping the record

  predicate Records(log: Log, asked: seq<Message>, shown: seq<AgentEvent>, turnsEnded: nat) {
    LastAsked(log) == asked && SinceRequest(log) == shown && TurnsEnded(log) == turnsEnded
  }

  /** `log` is what the plot says, and with it whether the first poll is still to be skipped and what the
      queues hold. */
  predicate Plotted(plot: Plot, log: Log, skip: bool, steering: QueueState, followUp: QueueState) {
    && Follows(plot, log) && skip == (plot.skip && !Polled(log))
    && steering == Left(plot, Steering, log) && followUp == Left(plot, FollowUp, log)
  }

  lemma EntryRecorded(plot: Plot, log: Log, e: Entry, skip: bool, asked: seq<Message>, shown: seq<AgentEvent>,
                      turnsEnded: nat, steering: QueueState, followUp: QueueState)
    requires Records(log, asked, shown, turnsEnded) && Plotted(plot, log, skip, steering, followUp)
    requires !e.Poll? && EntryFollows(plot, log, e)
    ensures Plotted(plot, log + [e], skip, steering, followUp)
    ensures Records(log + [e], if e.Request? then e.messages else asked,
                    if e.Request? then [] else shown + if e.Emit? then [e.event] else [],
                    turnsEnded + if e.Emit? && e.event.TurnEnd? then 1 else 0)
  {
    FollowsSnoc(plot, log, e);
    PlotFoldsSnoc(plot, log, e);
    hide Follows, EntryFollows, Left, Polled, LastAsked, SinceRequest, TurnsEnded;
  }

  lemma PollRecorded(plot: Plot, log: Log, e: Entry, skip: bool, asked: seq<Message>, shown: seq<AgentEvent>,
                     turnsEnded: nat, steering: QueueState, followUp: QueueState)
    requires Records(log, asked, shown, turnsEnded) && Plotted(plot, log, skip, steering, followUp)
    requires e.Poll?
    requires var found := (if e.source.Steering? then steering else followUp).After(
      e.source, plot.world.OpsBefore(turnsEnded, e.source));
      e.drained == if e.source.Steering? && skip then [] else found.Offer()
    ensures Records(log + [e], asked, shown, turnsEnded)
    ensures var ops := plot.world.OpsBefore(turnsEnded, e.source);
      var steering' := steering.After(Steering, ops);
      var followUp' := followUp.After(FollowUp, ops);
      Plotted(plot, log + [e], false, if e.source.Steering? && !skip then steering'.Drained() else steering',
              if e.source.FollowUp? then followUp'.Drained() else followUp')
  {
    FollowsSnoc(plot, log, e);
    PlotFoldsSnoc(plot, log, e);
    assert SinceRequest(log) + [] == SinceRequest(log);
    hide Follows, Left, Polled, LastAsked, SinceRequest, TurnsEnded;
  }

  // ---------------------------------------------------------------- Progress of running tools

  datatype Snapshot = Snapshot(start: RunStart, mon: Monitor, pool: seq<Execution>, since: seq<AgentEvent>)

  /** Tools may run: the reply's calls are being worked on. */
  predicate Running(s: Snapshot) {
    && (s.mon.phase.Working? || s.mon.phase.Reporting?)
    && Fits(s.pool, Open(s.mon.phase))
  }

  /** The pool runs the calls `runs`, as the scene has them run. */
  ghost predicate Started(scene: Scene, runs: seq<ToolCall>, pool: seq<Execution>) {
    |pool| == |runs| &&
    forall j :: 0 <= j < |runs| ==>
      scene.Runs(runs[j]) && pool[j].call == runs[j] && pool[j].run == scene.Execution(runs[j]) && pool[j].Sane()
  }

  predicate SettledUpTo(pool: seq<Execution>, k: nat) {
    k <= |pool| && forall j :: 0 <= j < k ==> pool[j].Settled()
  }

  lemma StillSettled(pool: seq<Execution>, pool': seq<Execution>, k: nat)
    requires Further(pool, pool') && SettledUpTo(pool, k)
    requires forall j :: 0 <= j < |pool'| ==> pool'[j].Sane()
    ensures SettledUpTo(pool', k)
  {
  }

  lemma NothingReported(scene: Scene, runs: seq<ToolCall>, prepared: seq<Preparation>, s: Snapshot)
    requires prepared == Map(scene.Prepare, runs) && Started(scene, runs, s.pool) && Running(s)
    requires Open(s.mon.phase) == OpenKeys(runs)
    ensures |s.pool| == |runs| == |prepared| && SettledUpTo(s.pool, 0) && Fits(s.pool, OpenKeys(runs[0..]))
    ensures scene.InOrder(runs[..0]) == [] && Advanced(s, s, ReportTrace(scene, runs[..0])) && runs[0..] == runs
  {
    NothingAdvances(s);
  }

  lemma PreparedAt(scene: Scene, runs: seq<ToolCall>, prepared: seq<Preparation>, k: nat)
    requires prepared == Map(scene.Prepare, runs) && k < |runs|
    ensures prepared[k] == scene.Prepare(runs[k])
  {
  }

  lemma PreparedIs(scene: Scene, runs: seq<ToolCall>, pool: seq<Execution>, k: nat)
    requires Started(scene, runs, pool) && k < |pool|
    ensures |pool| == |runs| && scene.Runs(runs[k])
    ensures scene.Prepare(runs[k]).Prepared? && scene.Prepare(runs[k]).call == runs[k]
  {
  }

  lemma StillStarted(scene: Scene, runs: seq<ToolCall>, pool: seq<Execution>, pool': seq<Execution>, k: nat,
                     open: multiset<Key>)
    requires Started(scene, runs, pool) && SettledUpTo(pool, k) && Further(pool, pool') && Fits(pool', open)
    ensures |pool'| == |runs| && Started(scene, runs, pool') && SettledUpTo(pool', k)
  {
    StillSettled(pool, pool', k);
  }

  /** Once the `k`-th tool has settled, its outcome is known and its call may be closed. */
  lemma ReadyToReport(scene: Scene, runs: seq<ToolCall>, pool: seq<Execution>, pool': seq<Execution>, k: nat,
                      open: multiset<Key>)
    requires Started(scene, runs, pool) && SettledUpTo(pool, k) && Further(pool, pool') && Fits(pool', open)
    requires k < |pool'| && pool'[k].Settled() && open == OpenKeys(runs[k..])
    ensures |pool'| == |runs| && Started(scene, runs, pool') && SettledUpTo(pool', k + 1)
    ensures scene.Runs(runs[k]) && pool'[k].run.outcome == scene.Execution(runs[k]).outcome
    ensures var key := Key(runs[k].id, runs[k].name);
      key in open && open - multiset{key} == OpenKeys(runs[k + 1..]) && Fits(pool', OpenKeys(runs[k + 1..]))
  {
    StillStarted(scene, runs, pool, pool', k, open);
    OpenKeysFrom(runs, k);
    FitsRest(scene, runs, pool', k);
  }

  lemma OpenKeysFrom(runs: seq<ToolCall>, k: nat)
    requires k < |runs|
    ensures Key(runs[k].id, runs[k].name) in OpenKeys(runs[k..])
    ensures OpenKeys(runs[k..]) - multiset{Key(runs[k].id, runs[k].name)} == OpenKeys(runs[k + 1..])
    ensures forall j :: k < j < |runs| ==> Key(runs[j].id, runs[j].name) in OpenKeys(runs[k + 1..])
  {
    assert CallKeys(runs[k..]) == [Key(runs[k].id, runs[k].name)] + CallKeys(runs[k + 1..]);
    forall j | k < j < |runs| ensures Key(runs[j].id, runs[j].name) in OpenKeys(runs[k + 1..]) {
      assert CallKeys(runs[k + 1..])[j - k - 1] == Key(runs[j].id, runs[j].name);
    }
  }

  lemma FitsRest(scene: Scene, runs: seq<ToolCall>, pool: seq<Execution>, k: nat)
    requires Started(scene, runs, pool) && k < |runs| && SettledUpTo(pool, k + 1)
    ensures Fits(pool, OpenKeys(runs[k + 1..]))
  {
    OpenKeysFrom(runs, k);
  }

  predicate NothingSent(pool: seq<Execution>) {
    forall j :: 0 <= j < |pool| ==> pool[j].next == 0
  }

  lemma NothingAdvances(s: Snapshot)
    requires Running(s)
    ensures Advanced(s, s, [])
  {
  }

  lemma {:induction false} AllTold(scene: Scene, calls: seq<ToolCall>, runs: seq<ToolCall>, s: Snapshot, s': Snapshot)
    requires runs == scene.Runnable(calls)
    requires Started(scene, runs, s.pool) && NothingSent(s.pool) && s.since == PreflightTrace(scene, calls)
    requires Started(scene, runs, s'.pool) && SettledUpTo(s'.pool, |runs|)
    requires Advanced(s, s', ReportTrace(scene, runs))
    ensures ConcurrentTrace(scene, calls, s'.since)
  {
    hide PreflightTrace, ReportTrace, Scene.Outcome, Scene.Prepare, Scene.Runnable;
    PreflightHasNoUpdates(scene, calls);
    NoUpdates(s.since, "");
    SentByRuns(scene, calls, runs, s'.pool, s'.since);
    if DistinctIds(calls) {
      RunnableDistinct(scene, calls);
      assert CallsOf(s.pool) == runs && CallsOf(s'.pool) == runs;
      forall i | 0 <= i < |runs| ensures UpdatesFor(s.pool[i].call.id, s.since) == s.pool[i].run.updates[..0] {
        NoUpdates(s.since, s.pool[i].call.id);
      }
      assert Told(s.pool, s.since);
      forall i | 0 <= i < |runs| ensures UpdatesFor(runs[i].id, s'.since) == scene.Execution(runs[i]).updates {
        var run := s'.pool[i].run;
        assert run.updates[..|run.updates|] == run.updates;
      }
    }
  }

  lemma SentByRuns(scene: Scene, calls: seq<ToolCall>, runs: seq<ToolCall>, pool: seq<Execution>, es: seq<AgentEvent>)
    requires runs == scene.Runnable(calls) && Started(scene, runs, pool) && Sent(pool, es)
    ensures OnlyRunsUpdate(scene, calls, es)
  {
    FilterIsPart(scene.Runs, calls);
    forall e | e in es && e.ToolUpdate? ensures exists call <- calls :: IsUpdateOf(scene, call, e) {
      var running :| running in pool && SentBy(running, e);
      var j :| 0 <= j < |pool| && pool[j] == running;
      assert runs[j] in calls && IsUpdateOf(scene, runs[j], e);
    }
  }

  /** The phases that reporting one outcome goes through. */
  lemma ReportingPhases(work: Work, call: ToolCall, output: ToolOutput, isError: bool)
    requires Key(call.id, call.name) in work.open
    ensures var r := ResultMessage(call, output, isError);
      var w := work.(open := work.open - multiset{Key(call.id, call.name)});
      NextPhase(Working(work), ToolEnd(call.id, call.name, output, isError)) == Some(Reporting(w, r, false)) &&
      NextPhase(Reporting(w, r, false), MessageStart(r)) == Some(Reporting(w, r, true)) &&
      NextPhase(Reporting(w, r, true), MessageEnd(r)) == Some(Working(w.(done := w.done + [r])))
  {
  }

  /** The loop itself emitted `es`, with partial results of running tools in between. */
  predicate Advanced(s: Snapshot, s': Snapshot, es: seq<AgentEvent>) {
    && s'.start == s.start
    && Running(s') && Further(s.pool, s'.pool)
    && Skeleton(s'.since) == Skeleton(s.since) + es
    && (Told(s.pool, s.since) ==> Told(s'.pool, s'.since))
    && (Sent(s.pool, s.since) ==> Sent(s'.pool, s'.since))
    && (s.pool == [] ==> s'.since == s.since + es)
  }

  /** Nothing happened but running tools sending partial results. */
  predicate Progress(s: Snapshot, s': Snapshot) {
    s'.mon == s.mon && Advanced(s, s', [])
  }

  lemma AdvancedTransitive(a: Snapshot, b: Snapshot, c: Snapshot, es: seq<AgentEvent>, es': seq<AgentEvent>)
    requires Advanced(a, b, es) && Advanced(b, c, es')
    ensures Advanced(a, c, es + es')
  {
    assert Skeleton(a.since) + es + es' == Skeleton(a.since) + (es + es');
    assert a.since + es + es' == a.since + (es + es');
  }

  lemma AdvancedThrice(a: Snapshot, b: Snapshot, c: Snapshot, d: Snapshot, x: AgentEvent, y: AgentEvent, z: AgentEvent)
    requires Advanced(a, b, [x]) && Advanced(b, c, [y]) && Advanced(c, d, [z])
    ensures Advanced(a, d, [x, y, z])
  {
    AdvancedTransitive(a, b, c, [x], [y]);
    AdvancedTransitive(a, c, d, [x] + [y], [z]);
    assert [x] + [y] + [z] == [x, y, z];
  }

  lemma ProgressThenAdvanced(a: Snapshot, b: Snapshot, c: Snapshot, es: seq<AgentEvent>)
    requires Progress(a, b) && Advanced(b, c, es)
    ensures Advanced(a, c, es)
  {
    AdvancedTransitive(a, b, c, [], es);
    assert [] + es == es;
  }

  lemma ProgressTransitive(a: Snapshot, b: Snapshot, c: Snapshot)
    requires Progress(a, b) && Progress(b, c)
    ensures Progress(a, c)
  {
    var none: seq<AgentEvent> := [];
    assert none + none == none;
    AdvancedTransitive(a, b, c, [], []);
  }

  /** The `j`-th tool sends its next partial result, which is shown by `ev`. */
  predicate Sends(pool: seq<Execution>, pool': seq<Execution>, j: nat, ev: AgentEvent) {
    && j < |pool| && pool[j].next < |pool[j].run.updates|
    && pool' == pool[j := pool[j].(next := pool[j].next + 1)]
    && ev == UpdateEvent(pool[j].call, pool[j].run.updates[pool[j].next])
  }

  lemma SendProgress(s: Snapshot, s': Snapshot, j: nat, ev: AgentEvent)
    requires Running(s) && Sends(s.pool, s'.pool, j, ev) && s'.since == s.since + [ev]
    requires s'.start == s.start && s'.mon == s.mon
    ensures Progress(s, s')
  {
    SkeletonSnoc(s.since, ev);
    assert Skeleton(s.since) + [] == Skeleton(s.since);
    PoolAfterSend(s.pool, s'.pool, Open(s.mon.phase), j, ev);
    ToldAfterSend(s.pool, s'.pool, s.since, j, ev);
    SentAfterSend(s.pool, s'.pool, s.since, j, ev);
    hide Told, Sent, Skeleton, UpdatesFor, Further, Fits, Sends;
  }

  lemma EmitAdvances(s: Snapshot, s': Snapshot, ev: AgentEvent)
    requires Running(s') && !ev.ToolUpdate?
    requires s'.pool == s.pool && s'.start == s.start && s'.since == s.since + [ev]
    requires forall j :: 0 <= j < |s.pool| ==> s.pool[j].Sane()
    ensures Advanced(s, s', [ev])
  {
    SkeletonSnoc(s.since, ev);
  }

  lemma PoolAfterSend(pool: seq<Execution>, pool': seq<Execution>, open: multiset<Key>, j: nat, ev: AgentEvent)
    requires Fits(pool, open) && Sends(pool, pool', j, ev)
    ensures pool != [] && Fits(pool', open) && Further(pool, pool')
  {
  }

  lemma SentAfterSend(pool: seq<Execution>, pool': seq<Execution>, es: seq<AgentEvent>, j: nat, ev: AgentEvent)
    requires Sends(pool, pool', j, ev)
    ensures Sent(pool, es) ==> Sent(pool', es + [ev])
  {
    if Sent(pool, es) {
      forall e | e in es + [ev] && e.ToolUpdate? ensures exists running <- pool' :: SentBy(running, e) {
        if e in es {
          var running :| running in pool && SentBy(running, e);
          var i :| 0 <= i < |pool| && pool[i] == running;
          assert pool'[i] in pool' && SentBy(pool'[i], e);
        } else {
          assert pool'[j] in pool' && SentBy(pool'[j], e);
        }
      }
    }
  }

  lemma ToldAfterSend(pool: seq<Execution>, pool': seq<Execution>, es: seq<AgentEvent>, j: nat, ev: AgentEvent)
    requires Sends(pool, pool', j, ev)
    ensures Told(pool, es) ==> Told(pool', es + [ev])
  {
    var r := pool[j];
    SkeletonSnoc(es, ev);
    assert CallsOf(pool') == CallsOf(pool);
    if DistinctIds(CallsOf(pool)) && Told(pool, es) {
      forall i | 0 <= i < |pool|
        ensures UpdatesFor(pool'[i].call.id, es + [ev]) == pool'[i].run.updates[..pool'[i].next]
      {
        assert CallsOf(pool)[i].id == pool[i].call.id && CallsOf(pool)[j].id == r.call.id;
        if i == j {
          assert r.run.updates[..r.next + 1] == r.run.updates[..r.next] + [r.run.updates[r.next]];
        }
      }
    }
  }
}
