/** What the log of a run must hold, given all that the run gets from outside. */
module RunPlots {
  import opened AgentTypes
  import opened Lists
  import opened ModelStreams
  import opened QueueOrigins
  import opened QueueTheorems
  import opened RunProtocol
  import opened RunTheorems
  import opened ToolRuns
  import opened ToolTraces
  import opened Worlds
  import opened Wrappers

  /** The tools and hooks, the model and the other parties, and the queues as the run finds them.
      `skip` says that the first poll is skipped. */
  datatype Plot = Plot(config: Config, world: World, skip: bool, steering: QueueState, followUp: QueueState) {

    function Queue(source: Source): QueueState {
      if source.Steering? then steering else followUp
    }

    /** Every message queued, at the start or later, is neither a reply nor a tool result. */
    predicate Plain() {
      AllPlain(steering.messages) && AllPlain(followUp.messages) && world.Obeys(PlainOp)
    }

    /** Both queues are in the one-at-a-time mode, and nobody changes that. */
    predicate OneAtATimeModes() {
      steering.mode.OneAtATimeMode? && followUp.mode.OneAtATimeMode? && world.Obeys(KeepsOneAtATime)
    }
  }

  // ---------------------------------------------------------------- Folds over a log

  function TurnsEnded(log: Log): nat {
    if log == [] then 0
    else
      var e := log[|log| - 1];
      TurnsEnded(log[..|log| - 1]) + if e.Emit? && e.event.TurnEnd? then 1 else 0
  }

  /** What the model has been asked last. */
  function LastAsked(log: Log): seq<Message> {
    if log == [] then []
    else if log[|log| - 1].Request? then log[|log| - 1].messages
    else LastAsked(log[..|log| - 1])
  }

  /** The events since the model was asked, or all of them if it has not been. */
  function SinceRequest(log: Log): seq<AgentEvent> {
    if log == [] then []
    else
      var e := log[|log| - 1];
      if e.Request? then []
      else SinceRequest(log[..|log| - 1]) + if e.Emit? then [e.event] else []
  }

  /** What is left of a queue after the run's polls and the operations of others before each. */
  function Left(plot: Plot, source: Source, log: Log): QueueState {
    if log == [] then plot.Queue(source)
    else
      var pre, e := log[..|log| - 1], log[|log| - 1];
      if !e.Poll? then Left(plot, source, pre)
      else
        var q := Left(plot, source, pre).After(source, plot.world.OpsBefore(TurnsEnded(pre), e.source));
        if e.source != source || Skips(plot, e.source, pre) then q else q.Drained()
  }

  /** This is the first poll of a run that skips it. */
  predicate Skips(plot: Plot, source: Source, log: Log) {
    source.Steering? && plot.skip && !Polled(log)
  }

  /** What a poll takes, when it comes after `log`. */
  function Offered(plot: Plot, source: Source, log: Log): seq<Message> {
    if Skips(plot, source, log) then []
    else Left(plot, source, log).After(source, plot.world.OpsBefore(TurnsEnded(log), source)).Offer()
  }

  /** The operations that others performed before the polls in `log`. */
  function OpsDone(world: World, log: Log): seq<QueueOp> {
    if log == [] then []
    else
      var pre, e := log[..|log| - 1], log[|log| - 1];
      OpsDone(world, pre) + if e.Poll? then world.OpsBefore(TurnsEnded(pre), e.source) else []
  }

  // ---------------------------------------------------------------- Following a plot

  /** After `pre`, a turn ends as the plot has it: with the reply of the next stream and, unless it
      failed, the results of its tool calls; since the model was asked, exactly the stream and the
      tool calls have been shown. */
  predicate TurnFollows(plot: Plot, pre: Log, message: Message, results: seq<Message>) {
    var turn := plot.world.Turn(TurnsEnded(pre)).reply;
    && FinalReply(turn).Ok?
    && var reply := FinalReply(turn).value;
       var scene := Scene(plot.config, LastAsked(pre) + [Assistant(reply)], reply);
       && message == Assistant(reply)
       && StreamTrace(turn) <= SinceRequest(pre)
       && var shown := SinceRequest(pre)[|StreamTrace(turn)|..];
          if reply.Failed() then results == [] && shown == []
          else results == ToolResults(scene) && ToolsShown(scene, shown)
  }

  /** After `pre`, the run crashes as the plot has it: with what the next stream throws, when all of
      that stream, and nothing else, has been shown since the model was asked. */
  predicate CrashFollows(plot: Plot, pre: Log, failure: AssistantMessage) {
    var turn := plot.world.Turn(TurnsEnded(pre)).reply;
    && FinalReply(turn).Err?
    && failure == FailureMessage(FinalReply(turn).error, plot.world.aborted)
    && SinceRequest(pre) == StreamTrace(turn)
  }

  predicate EntryFollows(plot: Plot, pre: Log, e: Entry) {
    match e
    case Emit(ev, _, _) => ev.TurnEnd? ==> TurnFollows(plot, pre, ev.message, ev.toolResults)
    case Poll(source, drained) => drained == Offered(plot, source, pre)
    case Crash(failure) => CrashFollows(plot, pre, failure)
    case Request(_) => true
  }

  /** Every poll, every end of a turn and every crash is what the plot says at that moment. */
  predicate Follows(plot: Plot, log: Log) {
    forall i :: 0 <= i < |log| ==> EntryFollows(plot, log[..i], log[i])
  }

  lemma FollowsSnoc(plot: Plot, log: Log, e: Entry)
    ensures Follows(plot, log + [e]) <==> Follows(plot, log) && EntryFollows(plot, log, e)
  {
    hide EntryFollows;
    var all := log + [e];
    assert all[..|log|] == log && all[|log|] == e;
    assert forall i :: 0 <= i < |log| ==> all[..i] == log[..i] && all[i] == log[i];
  }

  lemma PlotFoldsSnoc(plot: Plot, log: Log, e: Entry)
    ensures TurnsEnded(log + [e]) == TurnsEnded(log) + if e.Emit? && e.event.TurnEnd? then 1 else 0
    ensures LastAsked(log + [e]) == if e.Request? then e.messages else LastAsked(log)
    ensures SinceRequest(log + [e]) ==
            if e.Request? then [] else SinceRequest(log) + if e.Emit? then [e.event] else []
    ensures Polled(log + [e]) == (e.Poll? || Polled(log))
    ensures !e.Poll? ==> forall source :: Left(plot, source, log + [e]) == Left(plot, source, log)
    ensures e.Poll? ==> forall source ::
              var q := Left(plot, source, log).After(source, plot.world.OpsBefore(TurnsEnded(log), e.source));
              Left(plot, source, log + [e]) ==
                if e.source != source || Skips(plot, e.source, log) then q else q.Drained()
    ensures OpsDone(plot.world, log + [e]) ==
            OpsDone(plot.world, log) + if e.Poll? then plot.world.OpsBefore(TurnsEnded(log), e.source) else []
  {
    assert (log + [e])[..|log|] == log;
  }

  // ---------------------------------------------------------------- Turns

  /** Where the transcript stands since the model was asked. */
  predicate SinceAsked(p: Phase, transcript: seq<Message>, asked: seq<Message>) {
    match p
    case Asked => transcript == asked
    case Streaming => transcript == asked
    case Working(w) => transcript == asked + [Assistant(w.reply)] + w.done && !w.reply.Failed()
    case Reporting(w, _, _) => transcript == asked + [Assistant(w.reply)] + w.done && !w.reply.Failed()
    case Failing(reply) => transcript == asked + [Assistant(reply)] && reply.Failed()
    case _ => true
  }

  lemma SinceAskedStep(m: Monitor, asked: seq<Message>, e: Entry)
    requires SinceAsked(m.phase, m.Transcript(), asked) && Next(m, e).Some?
    ensures var m' := Next(m, e).value;
      SinceAsked(m'.phase, m'.Transcript(), if e.Request? then e.messages else asked)
  {
    var m' := Next(m, e).value;
    if e.Emit? {
      assert m'.Transcript() == m.Transcript() + EndedBy(e.event);
      assert EndedBy(e.event) == [] ==> m'.Transcript() == m.Transcript();
      SinceAskedEvent(m, asked, e);
    }
  }

  lemma SinceAskedEvent(m: Monitor, asked: seq<Message>, e: Entry)
    requires SinceAsked(m.phase, m.Transcript(), asked) && Next(m, e).Some? && e.Emit?
    ensures SinceAsked(Next(m, e).value.phase, m.Transcript() + EndedBy(e.event), asked)
  {
    assert m.Transcript() + [] == m.Transcript();
    assert forall reply :: asked + [Assistant(reply)] + [] == asked + [Assistant(reply)];
    match m.phase
    case Working(w) =>
    case Reporting(w, r, _) =>
      assert asked + [Assistant(w.reply)] + w.done + [r] == asked + [Assistant(w.reply)] + (w.done + [r]);
    case Streaming =>
    case _ =>
  }

  lemma {:induction false} SinceAskedAlong(base: seq<Message>, prompts: seq<Message>, log: Log)
    requires Accepted(base, prompts, log)
    ensures var m := Accept(base, prompts, log).value; SinceAsked(m.phase, m.Transcript(), LastAsked(log))
  {
    if log != [] {
      SinceAskedAlong(base, prompts, log[..|log| - 1]);
      SinceAskedStep(Accept(base, prompts, log[..|log| - 1]).value, LastAsked(log[..|log| - 1]), log[|log| - 1]);
    }
  }

  /** The `n`-th turn that ends, counted from 0, ends with the reply of the `n`-th stream. Unless that
      failed, the results are those of its tool calls, run by the plot's tools and hooks on the
      transcript up to and including the reply. */
  lemma TurnAsScripted(plot: Plot, base: seq<Message>, prompts: seq<Message>, log: Log, i: nat)
    requires Accepted(base, prompts, log) && Follows(plot, log)
    requires i < |log| && log[i].Emit? && log[i].event.TurnEnd?
    ensures TurnsEnded(log[..i]) < |plot.world.turns|
    ensures var turn := plot.world.turns[TurnsEnded(log[..i])].reply;
      && FinalReply(turn).Ok?
      && var reply := FinalReply(turn).value;
         var upTo := LastAsked(log[..i]) + [Assistant(reply)];
         && log[i].event.message == Assistant(reply)
         && base + Ended(log[..i]) == upTo + log[i].event.toolResults
         && log[i].event.toolResults == if reply.Failed() then [] else ToolResults(Scene(plot.config, upTo, reply))
  {
    var m, m' := StepAt(base, prompts, log, i);
    SinceAskedAlong(base, prompts, log[..i]);
    assert EntryFollows(plot, log[..i], log[i]);
    TurnEndPhases(m, LastAsked(log[..i]), log[i]);
    NoReplyThrows();
    hide ToolResults, ToolsShown, StreamTrace, SinceRequest, LastAsked, Accept, Next, FinalReply, SinceAsked, Ended;
  }

  lemma TurnEndPhases(m: Monitor, asked: seq<Message>, e: Entry)
    requires SinceAsked(m.phase, m.Transcript(), asked) && Next(m, e).Some? && e.Emit? && e.event.TurnEnd?
    ensures m.Transcript() == asked + [e.event.message] + e.event.toolResults
    ensures e.event.message.Assistant?
    ensures Next(m, e).value.phase ==
      if e.event.message.reply.Failed() then Stopping else Settled(e.event.message.reply.ToolCalls() != [])
  {
    assert forall ms: seq<Message> :: ms + [] == ms;
  }

  lemma NoReplyThrows()
    ensures FinalReply(NO_REPLY).Err?
  {
  }

  // ---------------------------------------------------------------- Queues

  /** Whatever is polled when: without a clear, what a queue has given out and what is left of it are
      together what it held at the start and what has been enqueued since, in order. */
  lemma {:induction false} QueueConserved(plot: Plot, source: Source, log: Log)
    requires Follows(plot, log) && NoClear(source, OpsDone(plot.world, log))
    ensures DrainedFrom(source, log) + Left(plot, source, log).messages ==
            plot.Queue(source).messages + Enqueued(source, OpsDone(plot.world, log))
  {
    if log == [] {
      assert plot.Queue(source).messages + [] == [] + plot.Queue(source).messages;
    } else {
      var pre, e := log[..|log| - 1], log[|log| - 1];
      assert log == pre + [e];
      FollowsSnoc(plot, pre, e);
      assert NoClear(source, OpsDone(plot.world, pre));
      QueueConserved(plot, source, pre);
      if e.Poll? {
        var ops := plot.world.OpsBefore(TurnsEnded(pre), e.source);
        assert NoClear(source, ops);
        NothingDroppedWithoutClear(source, Left(plot, source, pre).messages, ops);
        EnqueuedConcat(source, OpsDone(plot.world, pre), ops);
        PollConserves(plot, source, pre, e);
        Regroup(DrainedFrom(source, pre), Left(plot, source, pre).messages, Enqueued(source, ops));
        Regroup(plot.Queue(source).messages, Enqueued(source, OpsDone(plot.world, pre)), Enqueued(source, ops));
      } else {
        assert OpsDone(plot.world, log) == OpsDone(plot.world, pre) + [] == OpsDone(plot.world, pre);
        assert DrainedFrom(source, log) == DrainedFrom(source, pre) + [] == DrainedFrom(source, pre);
      }
    }
  }

  lemma PollConserves(plot: Plot, source: Source, pre: Log, e: Entry)
    requires e.Poll? && e.drained == Offered(plot, e.source, pre)
    ensures DrainedFrom(source, pre + [e]) + Left(plot, source, pre + [e]).messages ==
            DrainedFrom(source, pre) +
            AfterOps(source, Left(plot, source, pre).messages, plot.world.OpsBefore(TurnsEnded(pre), e.source))
  {
    PlotFoldsSnoc(plot, pre, e);
    assert (pre + [e])[..|pre|] == pre;
    var drained := if e.source == source then e.drained else [];
    assert DrainedFrom(source, pre + [e]) == DrainedFrom(source, pre) + drained;
    var q := Left(plot, source, pre).After(source, plot.world.OpsBefore(TurnsEnded(pre), e.source));
    assert q.messages == drained + Left(plot, source, pre + [e]).messages;
    hide DrainedFrom, Left, Skips, Offered;
    Regroup(DrainedFrom(source, pre), drained, Left(plot, source, pre + [e]).messages);
  }

  /** Unless others have cleared the queue, `after` is `before` and what they have enqueued since. */
  predicate NothingDropped(world: World, source: Source, log: Log, before: seq<Message>, after: seq<Message>) {
    NoClear(source, OpsDone(world, log)) ==> after == before + Enqueued(source, OpsDone(world, log))
  }

  /** The same with what earlier runs have taken in front. */
  lemma QueueKept(plot: Plot, source: Source, log: Log, earlier: seq<Message>)
    requires Follows(plot, log)
    ensures NothingDropped(plot.world, source, log, earlier + plot.Queue(source).messages,
                           earlier + DrainedFrom(source, log) + Left(plot, source, log).messages)
  {
    hide Follows, Left;
    if NoClear(source, OpsDone(plot.world, log)) {
      QueueConserved(plot, source, log);
      Regroup(earlier, DrainedFrom(source, log), Left(plot, source, log).messages);
      Regroup(earlier, plot.Queue(source).messages, Enqueued(source, OpsDone(plot.world, log)));
    }
  }

  lemma {:induction false} QueuesStayPlain(plot: Plot, log: Log)
    requires Follows(plot, log) && plot.Plain()
    ensures PlainPolls(log)
    ensures forall source :: AllPlain(Left(plot, source, log).messages)
  {
    if log != [] {
      var pre, e := log[..|log| - 1], log[|log| - 1];
      assert log == pre + [e];
      FollowsSnoc(plot, pre, e);
      PlotFoldsSnoc(plot, pre, e);
      QueuesStayPlain(plot, pre);
      if e.Poll? {
        ObeysBefore(plot.world, PlainOp, TurnsEnded(pre), e.source);
        var ops := plot.world.OpsBefore(TurnsEnded(pre), e.source);
        forall source ensures AllPlain(Left(plot, source, pre).After(source, ops).messages) {
          StaysPlain(source, Left(plot, source, pre).messages, ops);
        }
      }
    }
  }

  lemma {:induction false} QueuesStayOneAtATime(plot: Plot, log: Log)
    requires Follows(plot, log) && plot.OneAtATimeModes()
    ensures OneAtATime(log)
    ensures forall source :: Left(plot, source, log).mode.OneAtATimeMode?
  {
    if log != [] {
      var pre, e := log[..|log| - 1], log[|log| - 1];
      assert log == pre + [e];
      FollowsSnoc(plot, pre, e);
      PlotFoldsSnoc(plot, pre, e);
      QueuesStayOneAtATime(plot, pre);
      if e.Poll? {
        ObeysBefore(plot.world, KeepsOneAtATime, TurnsEnded(pre), e.source);
        var ops := plot.world.OpsBefore(TurnsEnded(pre), e.source);
        forall source ensures Left(plot, source, pre).After(source, ops).mode.OneAtATimeMode? {
          StaysOneAtATime(source, ops);
        }
      }
    }
  }

  /** What the first poll of a run takes. */
  function FirstOffer(plot: Plot): seq<Message> {
    if plot.skip then [] else plot.steering.After(Steering, plot.world.beforeFirstPoll).Offer()
  }

  predicate UpToFirstPoll(plot: Plot, log: Log, p: Phase) {
    if Polled(log) then FirstPollTaken(log) == FirstOffer(plot)
    else BeforeFirstPoll(p) && TurnsEnded(log) == 0 && Left(plot, Steering, log) == plot.steering
  }

  lemma FirstPollStep(m: Monitor, e: Entry)
    requires BeforeFirstPoll(m.phase) && Next(m, e).Some?
    ensures e.Poll? ==> e.source.Steering?
    ensures !e.Poll? ==> BeforeFirstPoll(Next(m, e).value.phase) && !(e.Emit? && e.event.TurnEnd?)
  {
  }

  lemma {:induction false} FirstPollAlong(plot: Plot, base: seq<Message>, prompts: seq<Message>, log: Log)
    requires Accepted(base, prompts, log) && Follows(plot, log)
    ensures UpToFirstPoll(plot, log, Accept(base, prompts, log).value.phase)
  {
    if log != [] {
      var pre, e := log[..|log| - 1], log[|log| - 1];
      assert log == pre + [e];
      FollowsSnoc(plot, pre, e);
      FirstPollAlong(plot, base, prompts, pre);
      PlotFoldsSnoc(plot, pre, e);
      FirstReplySnoc(pre, e);
      if !Polled(pre) {
        FirstPollStep(Accept(base, prompts, pre).value, e);
      }
    }
  }

  /** The first poll of a run comes before its first turn and finds the steering queue as it was, with
      what others have done to it before; it takes nothing if it is skipped. */
  lemma FirstPollAsScripted(plot: Plot, base: seq<Message>, prompts: seq<Message>, log: Log)
    requires Finished(base, prompts, log) && Follows(plot, log)
    ensures FirstPollTaken(log) == FirstOffer(plot)
    ensures plot.skip ==> FirstPollEmpty(log)
  {
    FirstReplyFollows(base, prompts, log);
    FirstPollAlong(plot, base, prompts, log);
    forall i | 0 <= i < |log| && log[i].Poll? && (forall j :: 0 <= j < i ==> !log[j].Poll?)
      ensures log[i].drained == FirstPollTaken(log)
    {
      FirstPollComes(log[..i], log);
    }
  }

  // ---------------------------------------------------------------- How a run ends

  /** The run goes on after this reply. */
  predicate Goes(reply: Reply) {
    FinalReply(reply).Ok? && !FinalReply(reply).value.Failed()
  }

  predicate Answered(world: World, n: nat) {
    n <= |world.turns| && forall j :: 0 <= j < n ==> Goes(world.turns[j].reply)
  }

  predicate CallsTools(reply: Reply)
    requires Goes(reply)
  {
    FinalReply(reply).value.ToolCalls() != []
  }

  /** After `n` replies, the stream of the next one throws `error`; or without an error, the next one
      is a failed reply, or the last of the `n` called no tool. */
  predicate EndsAt(world: World, n: nat, error: Option<string>) {
    && Answered(world, n)
    && var next := FinalReply(world.Turn(n).reply);
       match error
       case Some(e) => next == Err(e)
       case None => (next.Ok? && next.value.Failed()) || (n > 0 && !CallsTools(world.turns[n - 1].reply))
  }

  ghost predicate Explained(world: World, error: Option<string>) {
    exists n :: EndsAt(world, n, error)
  }

  /** When no stream of the script throws, a run crashes only by asking for more replies than the
      script has, after none that failed. */
  lemma CrashesOnlyByThrowing(world: World, error: string)
    requires forall turn <- world.turns :: FinalReply(turn.reply).Ok?
    requires Explained(world, Some(error))
    ensures Answered(world, |world.turns|) && FinalReply(NO_REPLY) == Err(error)
  {
    var n: nat :| EndsAt(world, n, Some(error));
  }

  ghost predicate EndsSoFar(world: World, log: Log, p: Phase) {
    var n := TurnsEnded(log);
    match p
    case Settled(tools) => n > 0 && Answered(world, n) && tools == CallsTools(world.turns[n - 1].reply)
    case Quiet => n > 0 && Answered(world, n) && !CallsTools(world.turns[n - 1].reply)
    case Stopping => Explained(world, None) && !Crashes(log)
    case Crashed(_) => Explained(world, CrashOf(log))
    case Over(_) => Explained(world, CrashOf(log))
    case _ => Answered(world, n)
  }

  lemma EndsSoFarStep(plot: Plot, pre: Log, m: Monitor, asked: seq<Message>, e: Entry)
    requires EndsSoFar(plot.world, pre, m.phase) && Next(m, e).Some? && EntryFollows(plot, pre, e)
    requires SinceAsked(m.phase, m.Transcript(), asked)
    requires (!Crashes(pre) ==> CrashOf(pre) == None) && (Crashes(pre) <==> CrashPhase(m.phase))
    ensures EndsSoFar(plot.world, pre + [e], Next(m, e).value.phase)
  {
    PlotFoldsSnoc(plot, pre, e);
    CrashesSnoc(pre, e);
    hide TurnsEnded, CrashOf, Crashes, SinceAsked, EndsSoFar, EntryFollows, Next;
    if e.Emit? && e.event.TurnEnd? {
      TurnEndExplained(plot, pre, m, asked, e);
    } else if e.Crash? {
      CrashExplained(plot, pre, m, e);
    } else {
      OtherwiseAnswered(plot.world, pre, m, e);
    }
  }

  lemma CrashExplained(plot: Plot, pre: Log, m: Monitor, e: Entry)
    requires EndsSoFar(plot.world, pre, m.phase) && Next(m, e).Some? && e.Crash? && EntryFollows(plot, pre, e)
    requires CrashOf(pre + [e]) == e.failure.errorMessage
    ensures EndsSoFar(plot.world, pre + [e], Next(m, e).value.phase)
  {
    hide CrashOf, TurnsEnded;
    assert EndsAt(plot.world, TurnsEnded(pre), e.failure.errorMessage);
  }

  lemma OtherwiseAnswered(world: World, pre: Log, m: Monitor, e: Entry)
    requires EndsSoFar(world, pre, m.phase) && Next(m, e).Some? && !e.Crash? && !(e.Emit? && e.event.TurnEnd?)
    requires TurnsEnded(pre + [e]) == TurnsEnded(pre) && CrashOf(pre + [e]) == CrashOf(pre)
    requires Crashes(pre + [e]) == Crashes(pre) == CrashPhase(m.phase) && (!Crashes(pre) ==> CrashOf(pre) == None)
    ensures EndsSoFar(world, pre + [e], Next(m, e).value.phase)
  {
    hide TurnsEnded, CrashOf, Crashes, Answered, CallsTools;
    if m.phase.Quiet? {
      assert EndsAt(world, TurnsEnded(pre), None);
    }
    hide EndsAt;
  }

  lemma TurnEndExplained(plot: Plot, pre: Log, m: Monitor, asked: seq<Message>, e: Entry)
    requires EndsSoFar(plot.world, pre, m.phase) && Next(m, e).Some? && EntryFollows(plot, pre, e)
    requires e.Emit? && e.event.TurnEnd? && SinceAsked(m.phase, m.Transcript(), asked)
    requires TurnsEnded(pre + [e]) == TurnsEnded(pre) + 1 && Crashes(pre + [e]) == Crashes(pre) == CrashPhase(m.phase)
    ensures EndsSoFar(plot.world, pre + [e], Next(m, e).value.phase)
  {
    TurnEndPhases(m, asked, e);
    TurnEndsWithNext(plot, pre, e);
    RepliedNext(plot.world, TurnsEnded(pre), e.event.message.reply);
    hide TurnsEnded, Crashes, CrashOf, EntryFollows, SinceAsked, Next, Answered, CallsTools, EndsAt, FinalReply;
  }

  lemma RepliedNext(world: World, n: nat, reply: AssistantMessage)
    requires Answered(world, n) && n < |world.turns| && FinalReply(world.turns[n].reply) == Ok(reply)
    ensures !reply.Failed() ==>
              Answered(world, n + 1) && CallsTools(world.turns[n].reply) == (reply.ToolCalls() != [])
    ensures reply.Failed() ==> EndsAt(world, n, None)
  {
  }

  lemma TurnEndsWithNext(plot: Plot, pre: Log, e: Entry)
    requires e.Emit? && e.event.TurnEnd? && EntryFollows(plot, pre, e) && e.event.message.Assistant?
    ensures TurnsEnded(pre) < |plot.world.turns|
    ensures FinalReply(plot.world.turns[TurnsEnded(pre)].reply) == Ok(e.event.message.reply)
  {
    NoReplyThrows();
    hide StreamTrace, SinceRequest, LastAsked, ToolResults, ToolsShown, FinalReply, TurnsEnded;
  }

  lemma {:induction false} EndsAlong(plot: Plot, base: seq<Message>, prompts: seq<Message>, log: Log)
    requires Accepted(base, prompts, log) && Follows(plot, log)
    ensures EndsSoFar(plot.world, log, Accept(base, prompts, log).value.phase)
  {
    if log != [] {
      var pre, e := log[..|log| - 1], log[|log| - 1];
      assert log == pre + [e];
      FollowsSnoc(plot, pre, e);
      EndsAlong(plot, base, prompts, pre);
      SinceAskedAlong(base, prompts, pre);
      CrashIsPhase(base, prompts, pre);
      EndsSoFarStep(plot, pre, Accept(base, prompts, pre).value, LastAsked(pre), e);
    }
  }

  /** A run ends exactly as its script has it: by the error of the first stream that throws, by the
      first failed reply, or after a reply without tool calls; every reply before went on. */
  lemma EndsAsScripted(plot: Plot, base: seq<Message>, prompts: seq<Message>, log: Log)
    requires Finished(base, prompts, log) && Follows(plot, log)
    ensures Explained(plot.world, CrashOf(log))
  {
    EndsAlong(plot, base, prompts, log);
  }
}
