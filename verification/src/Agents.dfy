/** The agent: prompts and continuations, one run at a time. */
module Agents {
  import opened AgentLoop
  import opened AgentStates
  import opened AgentTypes
  import opened AgentViews
  import opened MessageQueues
  import opened ModelStreams
  import opened QueueOrigins
  import opened QueueTheorems
  import opened RunPlots
  import opened RunProtocol
  import opened RunTheorems
  import opened ToolRuns
  import opened TraceLanguage
  import opened Worlds
  import opened Wrappers

  class Agent {
    const state: AgentState

    constructor (steeringMode: QueueMode, followUpMode: QueueMode, messages: seq<Message>)
      ensures state.Idle() && state.messages == messages && state.errorMessage == None
      ensures fresh(state) && fresh(state.steeringQueue) && fresh(state.followUpQueue)
    {
      state := new AgentState(steeringMode, followUpMode, messages);
    }

    /** What holds of the agent after a run from `base` with `prompts`, however the run ended: the run
        is allowed by the protocol and is, like what the queues hold, what the plot says. */
    ghost predicate Ran(base: seq<Message>, prompts: seq<Message>, plot: Plot)
      reads state, state.steeringQueue, state.followUpQueue
    {
      && state.Idle() && Finished(base, prompts, state.log) && Follows(plot, state.log)
      && state.messages == base + Ended(state.log) && state.start.prompts == prompts
      && state.errorMessage == ViewAfter(base, state.log).errorMessage
      && state.Queue(Steering) == Left(plot, Steering, state.log)
      && state.Queue(FollowUp) == Left(plot, FollowUp, state.log)
    }

    ghost predicate Delivered(steered: seq<Message>, followedUp: seq<Message>)
      reads state, state.steeringQueue, state.followUpQueue
    {
      && state.steeringQueue.delivered == steered + DrainedFrom(Steering, state.log)
      && state.followUpQueue.delivered == followedUp + DrainedFrom(FollowUp, state.log)
    }

    /** Unless others have cleared a queue, what it has given out and what is left of it are what these
        were before the run, and what has been enqueued since. */
    ghost predicate NoMessageDropped(world: World, steering: seq<Message>, followUp: seq<Message>)
      reads state, state.steeringQueue, state.followUpQueue
    {
      && NothingDropped(world, Steering, state.log, steering, Total(Steering))
      && NothingDropped(world, FollowUp, state.log, followUp, Total(FollowUp))
    }

    /** The promises about pairing and about injected messages, for a disciplined environment. */
    ghost predicate Kept(base: seq<Message>, prompts: seq<Message>, plot: Plot)
      reads state, state.steeringQueue, state.followUpQueue
    {
      && (plot.Plain() && AllPlain(prompts) ==>
            state.PlainQueues() && PlainPolls(state.log) && (Paired(base) ==> Paired(state.messages)))
      && (plot.OneAtATimeModes() ==> state.OneAtATimeQueues() && OneAtATime(state.log))
    }

    /** The run has ended as the replies of `world` say: it crashed with what a stream threw, and only
        then. */
    ghost predicate Ends(world: World)
      reads state
    {
      (Crashes(state.log) <==> CrashOf(state.log).Some?) && Explained(world, CrashOf(state.log))
    }

    ghost predicate Outcome(base: seq<Message>, prompts: seq<Message>, plot: Plot)
      reads state, state.steeringQueue, state.followUpQueue
    {
      && Ran(base, prompts, plot) && Kept(base, prompts, plot) && Ends(plot.world)
      && BeforeFirstReply(state.log) == prompts + FirstOffer(plot)
    }

    /** All that a run gets from outside, if it starts now. */
    ghost function PlotNow(config: Config, world: World, skip: bool): Plot
      reads state.steeringQueue, state.followUpQueue
    {
      Plot(config, world, skip, state.Queue(Steering), state.Queue(FollowUp))
    }

    /** What each queue has given out and what it holds. */
    ghost function Total(source: Source): seq<Message>
      reads state.steeringQueue, state.followUpQueue
    {
      state.QueueOf(source).delivered + state.QueueOf(source).messages
    }

    /** Starts a new prompt; refused while a run is active. A run that fails still returns
        normally, with the failure in the transcript. */
    method Prompt(prompts: seq<Message>, config: Config, world: World) returns (refused: Option<string>)
      requires state.QueuesValid() && (!state.activeRun ==> state.Idle()) && world.StartsOnce()
      modifies state, state.steeringQueue, state.followUpQueue
      ensures refused.Some? <==> old(state.activeRun)
      ensures refused.Some? ==> unchanged(state) && unchanged(state.steeringQueue) && unchanged(state.followUpQueue)
      ensures refused.None? ==>
        && Outcome(old(state.messages), prompts, old(PlotNow(config, world, false)))
        && Delivered(old(state.steeringQueue.delivered), old(state.followUpQueue.delivered))
        && NoMessageDropped(world, old(Total(Steering)), old(Total(FollowUp)))
    {
      if state.activeRun {
        return Some("Agent is already processing a prompt.");
      }
      RunPromptMessages(prompts, false, config, world);
      refused := None;
    }

    /** Continues from the transcript: from its last message if that is not a reply, and otherwise
        with queued steering messages, or else with queued follow-ups. */
    method Continue(config: Config, world: World) returns (refused: Option<string>)
      requires state.QueuesValid() && (!state.activeRun ==> state.Idle()) && world.StartsOnce()
      modifies state, state.steeringQueue, state.followUpQueue
      ensures refused.Some? <==>
        old(state.activeRun || state.messages == [] ||
            (EndsWithReply(state.messages) && state.steeringQueue.messages == [] && state.followUpQueue.messages == []))
      ensures refused.Some? ==> unchanged(state) && state.QueuesValid()
      ensures refused.None? ==> NoMessageDropped(world, old(Total(Steering)), old(Total(FollowUp)))
      ensures refused.None? && !EndsWithReply(old(state.messages)) ==>
        Outcome(old(state.messages), [], old(PlotNow(config, world, false)))
      ensures refused.None? && EndsWithReply(old(state.messages)) ==>
        Continued(old(state.messages), old(PlotNow(config, world, false)))
    {
      if state.activeRun {
        return Some("Agent is already processing. Wait for completion before continuing.");
      }
      if |state.messages| == 0 {
        return Some("No messages to continue from");
      }
      if state.messages[|state.messages| - 1].Assistant? {
        refused := ContinueAfterReply(config, world);
      } else {
        RunContinuation(config, world);
        refused := None;
      }
    }

    /** The run continued with what the mode takes of the steering queue and skipped its first poll, or,
        if nothing was queued there, with what the mode takes of the follow-up queue. */
    ghost predicate Continued(base: seq<Message>, plot: Plot)
      reads state, state.steeringQueue, state.followUpQueue
    {
      if plot.steering.messages != [] then
        && Outcome(base, plot.steering.Offer(), plot.(skip := true, steering := plot.steering.Drained()))
        && plot.steering.Offer() != [] && FirstPollEmpty(state.log)
      else
        && Outcome(base, plot.followUp.Offer(), plot.(followUp := plot.followUp.Drained()))
        && plot.followUp.Offer() != []
        && (plot.OneAtATimeModes() ==>
              |BeforeFirstReply(state.log)| ==
              if AfterOps(Steering, [], plot.world.beforeFirstPoll) != [] then 2 else 1)
    }

    method ContinueAfterReply(config: Config, world: World) returns (refused: Option<string>)
      requires state.Idle() && world.StartsOnce() && EndsWithReply(state.messages)
      modifies state, state.steeringQueue, state.followUpQueue
      ensures refused.Some? <==> old(state.steeringQueue.messages == [] && state.followUpQueue.messages == [])
      ensures refused.Some? ==> unchanged(state) && state.QueuesValid()
      ensures refused.None? ==> Continued(old(state.messages), old(PlotNow(config, world, false)))
      ensures refused.None? ==> NoMessageDropped(world, old(Total(Steering)), old(Total(FollowUp)))
    {
      ghost var plot, base := PlotNow(config, world, false), state.messages;
      var queuedSteering := state.steeringQueue.Drain();
      assert Total(Steering) == old(Total(Steering));
      if |queuedSteering| > 0 {
        assert PlotNow(config, world, true) == plot.(skip := true, steering := plot.steering.Drained());
        RunPromptMessages(queuedSteering, true, config, world);
        return None;
      }
      assert PlotNow(config, world, false) == plot;
      var queuedFollowUps := state.followUpQueue.Drain();
      assert Total(FollowUp) == old(Total(FollowUp));
      if |queuedFollowUps| > 0 {
        assert PlotNow(config, world, false) == plot.(followUp := plot.followUp.Drained());
        RunPromptMessages(queuedFollowUps, false, config, world);
        if plot.OneAtATimeModes() {
          TwoBeforeFirstReplyExactly(state.log, queuedFollowUps, OneAtATimeMode, [], world.beforeFirstPoll);
        }
        return None;
      }
      refused := Some("Cannot continue from message role: assistant");
    }

    method RunPromptMessages(prompts: seq<Message>, skip: bool, config: Config, world: World)
      requires state.Idle() && world.StartsOnce()
      modifies state, state.steeringQueue, state.followUpQueue
      ensures Outcome(old(state.messages), prompts, old(PlotNow(config, world, skip)))
      ensures skip ==> FirstPollEmpty(state.log)
      ensures Delivered(old(state.steeringQueue.delivered), old(state.followUpQueue.delivered))
      ensures NoMessageDropped(world, old(Total(Steering)), old(Total(FollowUp)))
    {
      hide AgentState.InRun, Accept, Follows, Left, CrashFollows, Outcome, NoMessageDropped, Delivered;
      ghost var plot := PlotNow(config, world, skip);
      state.BeginRun(prompts);
      var run := new LoopRun(state, config, state.messages + prompts, prompts, skip, plot);
      run.IsFresh(prompts);
      hide LoopRun.Fresh, LoopRun.NoMessageDropped, LoopRun.OnPlot, LoopRun.Recorded;
      var error := run.RunAgentLoop(prompts, world);
      run.QueuesOnPlot();
      Settle(error, world.aborted, plot);
    }

    method RunContinuation(config: Config, world: World)
      requires state.Idle() && world.StartsOnce() && state.messages != [] && !EndsWithReply(state.messages)
      modifies state, state.steeringQueue, state.followUpQueue
      ensures Outcome(old(state.messages), [], old(PlotNow(config, world, false)))
      ensures Delivered(old(state.steeringQueue.delivered), old(state.followUpQueue.delivered))
      ensures NoMessageDropped(world, old(Total(Steering)), old(Total(FollowUp)))
    {
      hide AgentState.InRun, Accept, Follows, Left, CrashFollows, Outcome, NoMessageDropped, Delivered;
      ghost var plot := PlotNow(config, world, false);
      state.BeginRun([]);
      assert state.messages + [] == state.messages;
      var run := new LoopRun(state, config, state.messages, [], false, plot);
      run.IsFresh([]);
      hide LoopRun.Fresh, LoopRun.NoMessageDropped, LoopRun.OnPlot, LoopRun.Recorded;
      var error := run.RunAgentLoopContinue(world);
      run.QueuesOnPlot();
      Settle(error, world.aborted, plot);
    }

    /** A run of the loop has come to one of its two ends, on its plot all along. */
    ghost predicate CameToEnd(error: Option<string>, plot: Plot)
      reads state, state.steeringQueue, state.followUpQueue
    {
      && state.InRun() && Follows(plot, state.log)
      && state.Queue(Steering) == Left(plot, Steering, state.log)
      && state.Queue(FollowUp) == Left(plot, FollowUp, state.log)
      && match error
         case None => state.Mon().phase == Over(false)
         case Some(e) =>
           && (state.Mon().phase.Asked? || state.Mon().phase.Streaming?)
           && CrashFollows(plot, state.log, FailureMessage(e, plot.world.aborted))
    }

    /** The two endings of a run: failure, if its executor threw, and then clean-up. */
    method Settle(error: Option<string>, aborted: bool, ghost plot: Plot)
      requires CameToEnd(error, plot) && aborted == plot.world.aborted
      modifies state
      ensures Outcome(old(state.start.base), old(state.start.prompts), plot)
      ensures Delivered(old(state.start.steered), old(state.start.followedUp))
      ensures NoMessageDropped(plot.world, old(state.start.steered) + plot.steering.messages,
                               old(state.start.followedUp) + plot.followUp.messages)
      ensures plot.skip ==> FirstPollEmpty(state.log)
      ensures error.None? ==> state.log == old(state.log)
      ensures error.Some? ==>
        && state.messages == old(state.messages) + [Assistant(FailureMessage(error.value, aborted))]
        && state.messages[|old(state.messages)|].reply.stopReason == (if aborted then Aborted else Error)
        && state.errorMessage == error
      ensures (error.Some? <==> Crashes(state.log)) && CrashOf(state.log) == error
    {
      hide Accept, Follows, Left, CrashFollows, NothingDropped, Ended, ViewAfter, Explained, Crashes, CrashOf,
        PlainPolls, OneAtATime, FirstPollEmpty, BeforeFirstReply;
      ghost var log0 := state.log;
      if error.Some? {
        state.HandleRunFailure(error.value, aborted);
        CrashLogged(plot, log0, state.log);
      } else {
        CrashIsPhase(state.start.base, state.start.prompts, state.log);
      }
      ghost var base, prompts := state.start.base, state.start.prompts;
      ViewIsFold(base, state.log);
      RunKept(plot, base, prompts, state.log);
      state.FinishRun();
      QueueKept(plot, Steering, state.log, state.start.steered);
      QueueKept(plot, FollowUp, state.log, state.start.followedUp);
    }
  }

  /** What every finished run on a plot guarantees. */
  lemma RunKept(plot: Plot, base: seq<Message>, prompts: seq<Message>, log: Log)
    requires Finished(base, prompts, log) && Follows(plot, log)
    ensures BeforeFirstReply(log) == prompts + FirstOffer(plot) && Explained(plot.world, CrashOf(log))
    ensures plot.skip ==> FirstPollEmpty(log)
    ensures plot.Plain() && AllPlain(prompts) ==>
              && AllPlain(Left(plot, Steering, log).messages) && AllPlain(Left(plot, FollowUp, log).messages)
              && PlainPolls(log) && (Paired(base) ==> Paired(base + Ended(log)))
    ensures plot.OneAtATimeModes() ==>
              && Left(plot, Steering, log).mode.OneAtATimeMode? && Left(plot, FollowUp, log).mode.OneAtATimeMode?
              && OneAtATime(log)
  {
    hide Accept, Follows, Left, Ended;
    FirstReplyFollows(base, prompts, log);
    FirstPollAsScripted(plot, base, prompts, log);
    EndsAsScripted(plot, base, prompts, log);
    if plot.Plain() && AllPlain(prompts) {
      QueuesStayPlain(plot, log);
      if Paired(base) {
        PairedAfterRun(base, prompts, log);
      }
    }
    if plot.OneAtATimeModes() {
      QueuesStayOneAtATime(plot, log);
    }
  }

  /** Where the skipped poll matters: in one-at-a-time mode, a run that continues with a queued
      follow-up has two queued messages before its first reply exactly if a steering message is
      queued by then, and one otherwise. */
  lemma TwoBeforeFirstReplyExactly(log: Log, prompts: seq<Message>, mode: QueueMode, steering: seq<Message>,
                                   ops: seq<QueueOp>)
    requires |prompts| == 1 && mode.OneAtATimeMode? && EachOp(KeepsOneAtATime, ops)
    requires BeforeFirstReply(log) == prompts + QueueState(mode, steering).After(Steering, ops).Offer()
    ensures |BeforeFirstReply(log)| == if AfterOps(Steering, steering, ops) != [] then 2 else 1
  {
    StaysOneAtATime(Steering, ops);
  }

  /** A follow-up is queued, and a steering message comes in before the first poll. */
  method FollowUpThenSteer(agent: Agent, followUp: Message, steer: Message, config: Config, world: World)
    requires agent.state.Idle() && EndsWithReply(agent.state.messages) && agent.state.OneAtATimeQueues()
    requires agent.state.steeringQueue.messages == [] && agent.state.followUpQueue.messages == [followUp]
    requires world.beforeFirstPoll == [Steer(steer)] && world.StartsOnce()
    modifies agent.state, agent.state.steeringQueue, agent.state.followUpQueue
    ensures BeforeFirstReply(agent.state.log) == [followUp, steer]
  {
    assert world.beforeFirstPoll[..0] == [] && AfterOps(Steering, [], world.beforeFirstPoll[..0]) == [];
    assert AfterOps(Steering, [], world.beforeFirstPoll) == [] + [steer];
    StaysOneAtATime(Steering, world.beforeFirstPoll);
    var refused := agent.Continue(config, world);
  }

  /** A stream that shows the beginning of a reply and throws: the run crashes, and its last turn
      has no end. */
  method StreamThrows(agent: Agent, prompts: seq<Message>, partial: AssistantMessage, config: Config, world: World)
    returns (ghost turns: seq<Turn>, ghost tail: seq<AgentEvent>)
    requires agent.state.Idle() && world.StartsOnce()
    requires world.turns != [] && world.turns[0].reply == Reply([Start(partial)], Threw("connection lost"))
    modifies agent.state, agent.state.steeringQueue, agent.state.followUpQueue
    ensures CrashOf(agent.state.log) == Some("connection lost") && tail != []
    ensures exists messages ::
              Events(agent.state.log) == [AgentStart] + RenderAll(turns) + tail + [AgentEnd(messages)]
  {
    var reply := world.turns[0].reply;
    assert reply.events[1..] == [] && FinalReply(reply) == Err("connection lost");
    ghost var base := agent.state.messages;
    var refused := agent.Prompt(prompts, config, world);
    ghost var n :| EndsAt(world, n, CrashOf(agent.state.log));
    assert n > 0 ==> Goes(world.turns[0].reply);
    ghost var messages;
    turns, tail, messages := TraceTheorem(base, prompts, agent.state.log);
  }

  predicate EndsWithReply(ms: seq<Message>) {
    ms != [] && ms[|ms| - 1].Assistant?
  }

  /** A run on a paired transcript leaves a paired transcript, also when it failed or crashed. */
  lemma PairedAfterRun(base: seq<Message>, prompts: seq<Message>, log: Log)
    requires Finished(base, prompts, log) && Paired(base) && AllPlain(prompts) && PlainPolls(log)
    ensures Paired(base + Ended(log))
  {
    PairedAlong(base, prompts, log);
    EndedIsMonitored(base, prompts, log);
  }

  /** The failure entries are what the plot says, and leave the queues alone. */
  lemma CrashLogged(plot: Plot, log: Log, log': Log)
    requires |log'| == |log| + 2 && log'[..|log|] == log && log'[|log|].Crash? && log'[|log| + 1].Emit?
    requires !log'[|log| + 1].event.TurnEnd? && Follows(plot, log) && CrashFollows(plot, log, log'[|log|].failure)
    ensures Crashes(log') && CrashOf(log') == log'[|log|].failure.errorMessage
    ensures Follows(plot, log')
    ensures Left(plot, Steering, log') == Left(plot, Steering, log)
    ensures Left(plot, FollowUp, log') == Left(plot, FollowUp, log)
  {
    var crash, end := log'[|log|], log'[|log| + 1];
    assert log' == log + [crash] + [end];
    CrashesSnoc(log, crash);
    CrashesSnoc(log + [crash], end);
    FollowsSnoc(plot, log, crash);
    FollowsSnoc(plot, log + [crash], end);
    PlotFoldsSnoc(plot, log, crash);
    PlotFoldsSnoc(plot, log + [crash], end);
    hide Crashes, CrashOf, Follows, Left, CrashFollows;
  }
}
