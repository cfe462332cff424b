/** The state of an agent and its queues, as its runs change them. */
module AgentStates {
  import opened AgentTypes
  import opened AgentViews
  import opened MessageQueues
  import opened QueueOrigins
  import opened QueueTheorems
  import opened RunProtocol
  import opened Worlds
  import opened Wrappers

  lemma FoldsOverSnoc(base: seq<Message>, log: Log, e: Entry)
    ensures e.Emit? ==> ViewAfter(base, log + [e]) == Reduce(ViewAfter(base, log), e.event)
    ensures e.Poll? || e.Request? ==> ViewAfter(base, log + [e]) == ViewAfter(base, log)
    ensures e.Crash? ==>
              ViewAfter(base, log + [e]) ==
              View(ViewAfter(base, log).messages + [Assistant(e.failure)], ViewAfter(base, log).streamingMessage,
                   ViewAfter(base, log).pendingToolCalls, e.failure.errorMessage)
    ensures DrainedFrom(Steering, log + [e]) ==
            if e.Poll? && e.source.Steering? then DrainedFrom(Steering, log) + e.drained else DrainedFrom(Steering, log)
    ensures DrainedFrom(FollowUp, log + [e]) ==
            if e.Poll? && e.source.FollowUp? then DrainedFrom(FollowUp, log) + e.drained else DrainedFrom(FollowUp, log)
  {
    assert (log + [e])[..|log|] == log;
  }

  /** What a run starts from. */
  datatype RunStart = RunStart(
    base: seq<Message>, prompts: seq<Message>, steered: seq<Message>, followedUp: seq<Message>)

  class AgentState {
    var messages: seq<Message>
    var isStreaming: bool
    var streamingMessage: Option<Message>
    var pendingToolCalls: set<string>
    var errorMessage: Option<string>
    var activeRun: bool
    const steeringQueue: PendingMessageQueue
    const followUpQueue: PendingMessageQueue

    /** The run that is active, or the last one. */
    ghost var start: RunStart
    ghost var log: Log

    ghost predicate QueuesValid()
      reads steeringQueue, followUpQueue
    {
      steeringQueue != followUpQueue && steeringQueue.Valid() && followUpQueue.Valid()
    }

    ghost predicate Idle()
      reads this, steeringQueue, followUpQueue
    {
      && QueuesValid()
      && !activeRun && !isStreaming && streamingMessage == None && pendingToolCalls == {}
    }

    /** A run is active, everything it did so far is allowed, and the agent's state is the fold
        of what it did. */
    ghost predicate InRun()
      reads this, steeringQueue, followUpQueue
    {
      QueuesValid() && Reduced() && Delivered()
    }

    ghost predicate Reduced()
      reads this
    {
      && activeRun && isStreaming
      && Accepted(start.base, start.prompts, log)
      && CurrentView() == ViewAfter(start.base, log)
    }

    ghost predicate Delivered()
      reads this, steeringQueue, followUpQueue
    {
      && steeringQueue.delivered == start.steered + DrainedFrom(Steering, log)
      && followUpQueue.delivered == start.followedUp + DrainedFrom(FollowUp, log)
    }

    ghost function CurrentView(): View
      reads this
    {
      View(messages, streamingMessage, pendingToolCalls, errorMessage)
    }

    ghost function Mon(): Monitor
      reads this
      requires Accepted(start.base, start.prompts, log)
    {
      Accept(start.base, start.prompts, log).value
    }

    lemma MonitorIsAccepted()
      requires Accepted(start.base, start.prompts, log)
      ensures Accept(start.base, start.prompts, log) == Some(Mon())
    {
    }

    ghost predicate PlainQueues()
      reads steeringQueue, followUpQueue
    {
      AllPlain(steeringQueue.messages) && AllPlain(followUpQueue.messages)
    }

    ghost predicate OneAtATimeQueues()
      reads steeringQueue, followUpQueue
    {
      steeringQueue.mode.OneAtATimeMode? && followUpQueue.mode.OneAtATimeMode?
    }

    constructor (steeringMode: QueueMode, followUpMode: QueueMode, messages: seq<Message>)
      ensures Idle() && this.messages == messages && errorMessage == None
      ensures fresh(steeringQueue) && fresh(followUpQueue)
      ensures steeringQueue.messages == [] && followUpQueue.messages == []
      ensures steeringQueue.mode == steeringMode && followUpQueue.mode == followUpMode
    {
      this.messages, isStreaming, streamingMessage := messages, false, None;
      pendingToolCalls, errorMessage, activeRun := {}, None, false;
      steeringQueue := new PendingMessageQueue(steeringMode);
      followUpQueue := new PendingMessageQueue(followUpMode);
    }

    method ApplyEvent(event: AgentEvent)
      modifies this`messages, this`streamingMessage, this`pendingToolCalls, this`errorMessage
      ensures CurrentView() == Reduce(old(CurrentView()), event)
    {
      match event
      case MessageStart(message) => streamingMessage := Some(message);
      case MessageUpdate(message) => streamingMessage := Some(message);
      case MessageEnd(message) =>
        streamingMessage := None;
        messages := messages + [message];
      case ToolStart(id, _, _) => pendingToolCalls := pendingToolCalls + {id};
      case ToolEnd(id, _, _, _) => pendingToolCalls := pendingToolCalls - {id};
      case TurnEnd(message, _) =>
        if message.Assistant? && message.reply.errorMessage.Some? && message.reply.errorMessage.value != "" {
          errorMessage := message.reply.errorMessage;
        }
      case AgentEnd(_) => streamingMessage := None;
      case _ =>
    }

    /** Reduces the state for a loop event; `context` and `newMessages` are the loop's arrays. */
    method ProcessEvents(event: AgentEvent, ghost context: seq<Message>, ghost newMessages: seq<Message>)
      requires InRun() && Accepted(start.base, start.prompts, log + [Entry.Emit(event, context, newMessages)])
      modifies this
      ensures InRun() && start == old(start)
      ensures log == old(log) + [Entry.Emit(event, context, newMessages)]
      ensures CurrentView() == Reduce(old(CurrentView()), event)
    {
      hide Accept, ViewAfter, DrainedFrom;
      FoldsOverSnoc(start.base, log, Entry.Emit(event, context, newMessages));
      ApplyEvent(event);
      log := log + [Entry.Emit(event, context, newMessages)];
    }

    /** Logs an entry that touches neither the agent's state nor its queues. */
    ghost method Note(e: Entry)
      requires InRun() && (e.Request? || (e.Poll? && e.drained == []))
      modifies this`log
      ensures log == old(log) + [e]
      ensures Accepted(start.base, start.prompts, log) ==> InRun()
    {
      hide Accept, ViewAfter, DrainedFrom;
      FoldsOverSnoc(start.base, log, e);
      assert forall ds: seq<Message> :: ds + [] == ds;
      log := log + [e];
    }

    // -------------------------------------------------------------- Queues

    function QueueOf(source: Source): PendingMessageQueue {
      if source.Steering? then steeringQueue else followUpQueue
    }

    /** A queue as it is now. */
    ghost function Queue(source: Source): QueueState
      reads steeringQueue, followUpQueue
    {
      QueueState(QueueOf(source).mode, QueueOf(source).messages)
    }

    method PerformOps(ops: seq<QueueOp>)
      requires QueuesValid()
      modifies steeringQueue, followUpQueue
      ensures QueuesValid() && (old(InRun()) ==> InRun())
      ensures steeringQueue.delivered == old(steeringQueue.delivered)
      ensures followUpQueue.delivered == old(followUpQueue.delivered)
      ensures Queue(Steering) == old(Queue(Steering)).After(Steering, ops)
      ensures Queue(FollowUp) == old(Queue(FollowUp)).After(FollowUp, ops)
    {
      for i := 0 to |ops|
        invariant QueuesValid()
        invariant steeringQueue.delivered == old(steeringQueue.delivered)
        invariant followUpQueue.delivered == old(followUpQueue.delivered)
        invariant Queue(Steering) == old(Queue(Steering)).After(Steering, ops[..i])
        invariant Queue(FollowUp) == old(Queue(FollowUp)).After(FollowUp, ops[..i])
      {
        assert ops[..i + 1][..i] == ops[..i];
        match ops[i]
        case Steer(message) => steeringQueue.Enqueue(message);
        case QueueFollowUp(message) => followUpQueue.Enqueue(message);
        case SetSteeringMode(mode) => steeringQueue.mode := mode;
        case SetFollowUpMode(mode) => followUpQueue.mode := mode;
        case ClearSteering => steeringQueue.Clear();
        case ClearFollowUp => followUpQueue.Clear();
      }
      assert ops[..|ops|] == ops;
    }

    method DrainQueue(source: Source) returns (drained: seq<Message>)
      requires QueuesValid()
      modifies steeringQueue, followUpQueue
      ensures QueuesValid()
      ensures drained == old(Queue(source)).Offer() && Queue(source) == old(Queue(source)).Drained()
      ensures unchanged(if source.Steering? then followUpQueue else steeringQueue)
      ensures steeringQueue.delivered == old(steeringQueue.delivered) + if source.Steering? then drained else []
      ensures followUpQueue.delivered == old(followUpQueue.delivered) + if source.FollowUp? then drained else []
    {
      match source {
        case Steering =>
          drained := steeringQueue.Drain();
          assert steeringQueue.messages == old(steeringQueue.messages)[|drained|..];
        case FollowUp =>
          drained := followUpQueue.Drain();
          assert followUpQueue.messages == old(followUpQueue.messages)[|drained|..];
      }
    }

    /** One poll of a queue during a run, after others have performed `ops`; a skipped one takes nothing. */
    method PollQueue(source: Source, ops: seq<QueueOp>, skip: bool) returns (drained: seq<Message>)
      requires InRun()
      modifies this`log, steeringQueue, followUpQueue
      ensures log == old(log) + [Poll(source, drained)]
      ensures Accepted(start.base, start.prompts, log) ==> InRun()
      ensures drained == if skip then [] else old(Queue(source)).After(source, ops).Offer()
      ensures Queue(Steering) ==
        var found := old(Queue(Steering)).After(Steering, ops);
        if source.Steering? && !skip then found.Drained() else found
      ensures Queue(FollowUp) ==
        var found := old(Queue(FollowUp)).After(FollowUp, ops);
        if source.FollowUp? && !skip then found.Drained() else found
    {
      hide AfterOps, ModeAfter, Taken;
      PerformOps(ops);
      if skip {
        drained := [];
        Note(Poll(source, []));
      } else {
        drained := DrainQueue(source);
        LogPoll(source, drained);
      }
    }

    /** Logs a poll whose messages have just left their queue. */
    ghost method LogPoll(source: Source, drained: seq<Message>)
      requires Reduced() && QueuesValid()
      requires steeringQueue.delivered ==
        start.steered + DrainedFrom(Steering, log) + if source.Steering? then drained else []
      requires followUpQueue.delivered ==
        start.followedUp + DrainedFrom(FollowUp, log) + if source.FollowUp? then drained else []
      modifies this`log
      ensures log == old(log) + [Poll(source, drained)]
      ensures Accepted(start.base, start.prompts, log) ==> InRun()
    {
      hide Accept, ViewAfter, DrainedFrom;
      FoldsOverSnoc(start.base, log, Poll(source, drained));
      log := log + [Poll(source, drained)];
    }

    /** The history of each queue, at every moment of a run, in order: what earlier runs took, what
        of it this run has injected, what it is about to inject, and what is still queued. */
    lemma QueueHistory()
      requires InRun()
      ensures steeringQueue.accepted == start.steered + InjectedFrom(Some(Steering), log)
                + WaitingFrom(Some(Steering), log, Mon().phase) + steeringQueue.messages
      ensures followUpQueue.accepted == start.followedUp + InjectedFrom(Some(FollowUp), log)
                + WaitingFrom(Some(FollowUp), log, Mon().phase) + followUpQueue.messages
    {
      hide Accept, ViewAfter, DrainedFrom, InjectedFrom, WaitingFrom;
      EachQueueInOrder(start.base, start.prompts, log, Some(Steering));
      EachQueueInOrder(start.base, start.prompts, log, Some(FollowUp));
      Parts(start.steered, InjectedFrom(Some(Steering), log), WaitingFrom(Some(Steering), log, Mon().phase));
      Parts(start.followedUp, InjectedFrom(Some(FollowUp), log), WaitingFrom(Some(FollowUp), log, Mon().phase));
    }

    // -------------------------------------------------------------- The life of a run

    method BeginRun(ghost prompts: seq<Message>)
      requires Idle()
      modifies this
      ensures InRun() && log == [] && messages == old(messages)
      ensures start == RunStart(old(messages), prompts, steeringQueue.delivered, followUpQueue.delivered)
    {
      activeRun, isStreaming := true, true;
      streamingMessage, errorMessage := None, None;
      start := RunStart(messages, prompts, steeringQueue.delivered, followUpQueue.delivered);
      log := [];
    }

    /** The ending of a run whose executor threw. */
    method HandleRunFailure(error: string, aborted: bool)
      requires InRun() && (Mon().phase.Asked? || Mon().phase.Streaming?)
      modifies this
      ensures InRun() && Mon().phase.Over? && start == old(start)
      ensures log == old(log) + [Crash(FailureMessage(error, aborted)),
                                 Entry.Emit(AgentEnd([Assistant(FailureMessage(error, aborted))]), [], [])]
      ensures errorMessage == Some(error)
      ensures messages == old(messages) + [Assistant(FailureMessage(error, aborted))]
    {
      var failure := FailureMessage(error, aborted);
      FailureIsAccepted(start.base, start.prompts, log, failure);
      RecordFailure(failure);
      ProcessEvents(AgentEnd([Assistant(failure)]), [], []);
    }

    method RecordFailure(failure: AssistantMessage)
      requires InRun() && Accepted(start.base, start.prompts, log + [Crash(failure)])
      modifies this`messages, this`errorMessage, this`log
      ensures InRun() && log == old(log) + [Crash(failure)]
      ensures messages == old(messages) + [Assistant(failure)] && errorMessage == failure.errorMessage
    {
      hide Accept, ViewAfter, DrainedFrom;
      FoldsOverSnoc(start.base, log, Crash(failure));
      messages := messages + [Assistant(failure)];
      errorMessage := failure.errorMessage;
      log := log + [Crash(failure)];
    }

    method FinishRun()
      requires InRun()
      modifies this
      ensures Idle() && start == old(start) && log == old(log)
      ensures messages == old(messages) && errorMessage == old(errorMessage)
    {
      isStreaming, streamingMessage, pendingToolCalls, activeRun := false, None, {}, false;
    }
  }

  lemma Parts(a: seq<Message>, b: seq<Message>, c: seq<Message>)
    ensures a + (b + c) == a + b + c
  {
  }

  lemma {:induction false} FailureIsAccepted(base: seq<Message>, prompts: seq<Message>, log: Log,
                                             failure: AssistantMessage)
    requires Accepted(base, prompts, log) && failure.Failed() && failure.content == [Text("")]
    requires Accept(base, prompts, log).value.phase.Asked? || Accept(base, prompts, log).value.phase.Streaming?
    ensures Accepted(base, prompts, log + [Crash(failure)])
    ensures var e := Entry.Emit(AgentEnd([Assistant(failure)]), [], []);
      Finished(base, prompts, log + [Crash(failure)] + [e]) &&
      log + [Crash(failure)] + [e] == log + [Crash(failure), e]
  {
    var e := Entry.Emit(AgentEnd([Assistant(failure)]), [], []);
    assert CallsIn([Text("")][1..]) == [];
    assert failure.ToolCalls() == [];
    hide Accept, NextPhase;
    AcceptSnoc(base, prompts, log, Crash(failure));
    AcceptSnoc(base, prompts, log + [Crash(failure)], e);
    FailureEnds(Accept(base, prompts, log + [Crash(failure)]).value, failure, e);
  }

  lemma FailureEnds(m: Monitor, failure: AssistantMessage, e: Entry)
    requires m.phase == Crashed(failure) && e == Entry.Emit(AgentEnd([Assistant(failure)]), [], [])
    ensures Next(m, e).Some? && Next(m, e).value.phase.Over?
  {
  }
}
