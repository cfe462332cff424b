/** What a run meets outside: the model's replies, and what others do to the queues. */
module Worlds {
  import opened AgentTypes
  import opened MessageQueues
  import opened ModelStreams
  import opened RunProtocol

  /** What others may do to the queues between two polls. */
  datatype QueueOp =
    | Steer(message: Message)
    | QueueFollowUp(message: Message)
    | SetSteeringMode(mode: QueueMode)
    | SetFollowUpMode(mode: QueueMode)
    | ClearSteering
    | ClearFollowUp

  /** One scheduling decision while concurrent tools run: let the `j`-th send its next partial
      result, or give the control back to the loop. */
  datatype Step = Advance(j: nat) | Resume

  datatype TurnScript = TurnScript(
    reply: Reply, schedule: seq<Step>, beforeSteering: seq<QueueOp>, beforeFollowUp: seq<QueueOp>)

  const NO_REPLY := Reply([], Threw("the stream function has no reply"))

  /** Everything a run gets from outside. */
  datatype World = World(beforeFirstPoll: seq<QueueOp>, turns: seq<TurnScript>, aborted: bool) {

    /** The `n`-th turn, counted from 0. When the script is used up, the model's stream throws. */
    function Turn(n: nat): TurnScript {
      if n < |turns| then turns[n] else TurnScript(NO_REPLY, [], [], [])
    }

    /** What others do before a queue is polled, when `n` turns have ended. */
    function OpsBefore(n: nat, source: Source): seq<QueueOp> {
      if n == 0 then beforeFirstPoll
      else if source.Steering? then Turn(n - 1).beforeSteering
      else Turn(n - 1).beforeFollowUp
    }

    /** The documented protocol of streams. */
    predicate StartsOnce() {
      forall turn <- turns :: AtMostOneStart(turn.reply.events)
    }

    predicate Obeys(p: QueueOp -> bool) {
      && EachOp(p, beforeFirstPoll)
      && forall turn <- turns :: EachOp(p, turn.beforeSteering) && EachOp(p, turn.beforeFollowUp)
    }
  }

  predicate PlainOp(op: QueueOp) {
    (op.Steer? || op.QueueFollowUp?) ==> op.message.Plain()
  }

  predicate KeepsOneAtATime(op: QueueOp) {
    (op.SetSteeringMode? || op.SetFollowUpMode?) ==> op.mode.OneAtATimeMode?
  }

  predicate EachOp(p: QueueOp -> bool, ops: seq<QueueOp>) {
    forall op <- ops :: p(op)
  }

  lemma ObeysBefore(world: World, p: QueueOp -> bool, n: nat, source: Source)
    requires world.Obeys(p)
    ensures EachOp(p, world.OpsBefore(n, source))
  {
    if 0 < n <= |world.turns| {
      assert world.turns[n - 1] in world.turns;
    }
  }

  // ---------------------------------------------------------------- Operations on a queue

  /** A queue's messages after the operations, if nothing is drained in between. */
  function AfterOps(source: Source, messages: seq<Message>, ops: seq<QueueOp>): seq<Message> {
    if ops == [] then messages
    else
      var before := AfterOps(source, messages, ops[..|ops| - 1]);
      match ops[|ops| - 1]
      case Steer(m) => if source.Steering? then before + [m] else before
      case QueueFollowUp(m) => if source.FollowUp? then before + [m] else before
      case ClearSteering => if source.Steering? then [] else before
      case ClearFollowUp => if source.FollowUp? then [] else before
      case _ => before
  }

  function ModeAfter(source: Source, mode: QueueMode, ops: seq<QueueOp>): QueueMode {
    if ops == [] then mode
    else
      var before := ModeAfter(source, mode, ops[..|ops| - 1]);
      match ops[|ops| - 1]
      case SetSteeringMode(m) => if source.Steering? then m else before
      case SetFollowUpMode(m) => if source.FollowUp? then m else before
      case _ => before
  }

  /** The messages that the operations put into a queue. */
  function Enqueued(source: Source, ops: seq<QueueOp>): seq<Message> {
    if ops == [] then []
    else
      var before := Enqueued(source, ops[..|ops| - 1]);
      match ops[|ops| - 1]
      case Steer(m) => if source.Steering? then before + [m] else before
      case QueueFollowUp(m) => if source.FollowUp? then before + [m] else before
      case _ => before
  }

  predicate Clears(source: Source, op: QueueOp) {
    if source.Steering? then op.ClearSteering? else op.ClearFollowUp?
  }

  predicate NoClear(source: Source, ops: seq<QueueOp>) {
    forall op <- ops :: !Clears(source, op)
  }

  predicate SetsMode(source: Source, op: QueueOp) {
    if source.Steering? then op.SetSteeringMode? else op.SetFollowUpMode?
  }

  /** Without a clear, what is enqueued follows what is queued, in order and whatever the modes. */
  lemma {:induction false} NothingDroppedWithoutClear(source: Source, messages: seq<Message>, ops: seq<QueueOp>)
    requires NoClear(source, ops)
    ensures AfterOps(source, messages, ops) == messages + Enqueued(source, ops)
  {
    if ops == [] {
      assert messages + [] == messages;
    } else {
      var front, last := ops[..|ops| - 1], ops[|ops| - 1];
      assert ops == front + [last] && !Clears(source, last);
      NothingDroppedWithoutClear(source, messages, front);
      assert forall m :: messages + Enqueued(source, front) + [m] == messages + (Enqueued(source, front) + [m]);
    }
  }

  lemma {:induction false} AfterOpsConcat(source: Source, messages: seq<Message>, a: seq<QueueOp>, b: seq<QueueOp>)
    ensures AfterOps(source, messages, a + b) == AfterOps(source, AfterOps(source, messages, a), b)
  {
    if b == [] {
      assert a + b == a;
    } else {
      assert (a + b)[..|a + b| - 1] == a + b[..|b| - 1];
      AfterOpsConcat(source, messages, a, b[..|b| - 1]);
    }
  }

  /** After the last clear, a queue holds what has been enqueued since. */
  lemma OnlySinceLastClear(source: Source, messages: seq<Message>, ops: seq<QueueOp>, i: nat)
    requires i < |ops| && Clears(source, ops[i]) && NoClear(source, ops[i + 1..])
    ensures AfterOps(source, messages, ops) == Enqueued(source, ops[i + 1..])
  {
    var upTo, rest := ops[..i + 1], ops[i + 1..];
    assert ops == upTo + rest;
    AfterOpsConcat(source, messages, upTo, rest);
    assert AfterOps(source, messages, upTo) == [];
    NothingDroppedWithoutClear(source, [], rest);
    assert [] + Enqueued(source, rest) == Enqueued(source, rest);
  }

  /** A queue's mode is the one set last, or the one it had if none is set. */
  lemma {:induction false} ModeIsLastSet(source: Source, mode: QueueMode, ops: seq<QueueOp>, i: nat)
    requires i <= |ops| && forall op <- ops[i..] :: !SetsMode(source, op)
    requires i > 0 ==> SetsMode(source, ops[i - 1])
    ensures ModeAfter(source, mode, ops) == if i > 0 then ops[i - 1].mode else mode
    decreases |ops|
  {
    if i < |ops| {
      var front, last := ops[..|ops| - 1], ops[|ops| - 1];
      assert ops[i..] == front[i..] + [last] && last in ops[i..];
      ModeIsLastSet(source, mode, front, i);
    }
  }

  lemma {:induction false} EnqueuedConcat(source: Source, a: seq<QueueOp>, b: seq<QueueOp>)
    ensures Enqueued(source, a + b) == Enqueued(source, a) + Enqueued(source, b)
  {
    if b == [] {
      assert a + b == a && Enqueued(source, a) + [] == Enqueued(source, a);
    } else {
      assert (a + b)[..|a + b| - 1] == a + b[..|b| - 1];
      EnqueuedConcat(source, a, b[..|b| - 1]);
    }
  }

  lemma {:induction false} StaysOneAtATime(source: Source, ops: seq<QueueOp>)
    requires EachOp(KeepsOneAtATime, ops)
    ensures ModeAfter(source, OneAtATimeMode, ops).OneAtATimeMode?
  {
    if ops != [] {
      assert ops == ops[..|ops| - 1] + [ops[|ops| - 1]];
      assert ops[|ops| - 1] in ops && EachOp(KeepsOneAtATime, ops[..|ops| - 1]);
      StaysOneAtATime(source, ops[..|ops| - 1]);
    }
  }

  lemma {:induction false} StaysPlain(source: Source, messages: seq<Message>, ops: seq<QueueOp>)
    requires AllPlain(messages) && EachOp(PlainOp, ops)
    ensures AllPlain(AfterOps(source, messages, ops))
  {
    if ops != [] {
      assert ops == ops[..|ops| - 1] + [ops[|ops| - 1]];
      assert ops[|ops| - 1] in ops && EachOp(PlainOp, ops[..|ops| - 1]);
      StaysPlain(source, messages, ops[..|ops| - 1]);
    }
  }

  /** A queue at one moment. */
  datatype QueueState = QueueState(mode: QueueMode, messages: seq<Message>) {

    function After(source: Source, ops: seq<QueueOp>): QueueState {
      QueueState(ModeAfter(source, mode, ops), AfterOps(source, messages, ops))
    }

    /** What it gives out when it is drained, and what is left of it. */
    function Offer(): (taken: seq<Message>)
      ensures taken <= messages
    {
      Taken(mode, messages)
    }

    function Drained(): QueueState {
      QueueState(mode, messages[|Offer()|..])
    }
  }
}
