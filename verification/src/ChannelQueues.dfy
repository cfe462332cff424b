/** One queue of jobs per Slack channel: a job starts when the one before it has settled. */
module ChannelQueues {

  const MAX_QUEUED_EVENTS := 5

  datatype SlackEvent = SlackEvent(channel: string, user: string, text: string)

  /** A queued call of the message handler; `scheduled` marks the calls made for event files. */
  datatype Work = Work(event: SlackEvent, scheduled: bool)

  /** Jobs that throw at once, without a single await. */
  type Thrower = Work -> bool

  /** What the queue has done and still has to do. */
  datatype Progress = Progress(finished: seq<Work>, running: seq<Work>, waiting: seq<Work>) {
    function History(): seq<Work> {
      finished + running + waiting
    }
  }

  const NOTHING := Progress([], [], [])

  /** Starts jobs until one is suspended at an await. */
  function Advance(throws: Thrower, p: Progress): Progress
    decreases |p.waiting|
  {
    if p.running != [] || p.waiting == [] then p
    else
      var work, rest := p.waiting[0], p.waiting[1..];
      if throws(work) then Advance(throws, Progress(p.finished + [work], [], rest))
      else Progress(p.finished, [work], rest)
  }

  /** What can happen while a job is suspended; settling covers success and failure alike. */
  datatype Step = Enqueue(event: SlackEvent) | EnqueueEvent(event: SlackEvent) | Settle

  function Refused(p: Progress, step: Step): bool {
    step.EnqueueEvent? && |p.waiting| >= MAX_QUEUED_EVENTS
  }

  function After(throws: Thrower, p: Progress, step: Step): Progress {
    if Refused(p, step) then p
    else
      match step
      case Enqueue(e) => Advance(throws, p.(waiting := p.waiting + [Work(e, false)]))
      case EnqueueEvent(e) => Advance(throws, p.(waiting := p.waiting + [Work(e, true)]))
      case Settle =>
        if p.running == [] then p
        else Advance(throws, Progress(p.finished + p.running, [], p.waiting))
  }

  function AfterAll(throws: Thrower, steps: seq<Step>): Progress {
    if steps == [] then NOTHING
    else After(throws, AfterAll(throws, steps[..|steps| - 1]), steps[|steps| - 1])
  }

  /** The jobs that the steps put into the queue, in the order of the steps. */
  function Enqueued(throws: Thrower, steps: seq<Step>): seq<Work> {
    if steps == [] then []
    else
      var front, last := steps[..|steps| - 1], steps[|steps| - 1];
      Enqueued(throws, front) +
      if last.Settle? || Refused(AfterAll(throws, front), last) then []
      else [Work(last.event, last.EnqueueEvent?)]
  }

  /** At most one job runs, a waiting job implies a running one, and no scheduled job waits behind
      five others. */
  predicate Orderly(p: Progress) {
    && |p.running| <= 1
    && (p.waiting != [] ==> p.running != [])
    && EventsUpFront(p.waiting)
  }

  predicate EventsUpFront(waiting: seq<Work>) {
    forall i :: 0 <= i < |waiting| && waiting[i].scheduled ==> i < MAX_QUEUED_EVENTS
  }

  lemma {:induction false} AdvanceIsOrderly(throws: Thrower, p: Progress)
    requires |p.running| <= 1 && EventsUpFront(p.waiting)
    ensures Orderly(Advance(throws, p))
    ensures Advance(throws, p).History() == p.History()
    ensures p.finished <= Advance(throws, p).finished && |Advance(throws, p).waiting| <= |p.waiting|
    decreases |p.waiting|
  {
    if p.running == [] && p.waiting != [] {
      var work, rest := p.waiting[0], p.waiting[1..];
      RestUpFront(p.waiting);
      if throws(work) {
        var next := Progress(p.finished + [work], [], rest);
        assert next.History() == p.History();
        AdvanceIsOrderly(throws, next);
      } else {
        assert Progress(p.finished, [work], rest).History() == p.History();
      }
    }
  }

  lemma RestUpFront(waiting: seq<Work>)
    requires waiting != [] && EventsUpFront(waiting)
    ensures EventsUpFront(waiting[1..])
  {
    var rest := waiting[1..];
    forall i | 0 <= i < |rest| && rest[i].scheduled ensures i < MAX_QUEUED_EVENTS {
      assert rest[i] == waiting[i + 1];
    }
  }

  lemma StepIsOrderly(throws: Thrower, p: Progress, step: Step)
    requires Orderly(p)
    ensures Orderly(After(throws, p, step))
    ensures After(throws, p, step).History() ==
            p.History() + if step.Settle? || Refused(p, step) then [] else [Work(step.event, step.EnqueueEvent?)]
  {
    if !Refused(p, step) {
      match step
      case Settle =>
        AdvanceIsOrderly(throws, Progress(p.finished + p.running, [], p.waiting));
      case Enqueue(e) =>
        AdvanceIsOrderly(throws, p.(waiting := p.waiting + [Work(e, false)]));
      case EnqueueEvent(e) =>
        AdvanceIsOrderly(throws, p.(waiting := p.waiting + [Work(e, true)]));
    }
  }

  /** Over every run: the jobs put into the queue are those finished, then at most one running,
      then those waiting, in first-in first-out order, however the jobs end. */
  lemma {:induction false} FirstInFirstOut(throws: Thrower, steps: seq<Step>)
    ensures Orderly(AfterAll(throws, steps))
    ensures AfterAll(throws, steps).History() == Enqueued(throws, steps)
  {
    if steps != [] {
      FirstInFirstOut(throws, steps[..|steps| - 1]);
      StepIsOrderly(throws, AfterAll(throws, steps[..|steps| - 1]), steps[|steps| - 1]);
    }
  }

  function Mentions(steps: seq<Step>): nat {
    if steps == [] then 0
    else Mentions(steps[..|steps| - 1]) + if steps[|steps| - 1].Enqueue? then 1 else 0
  }

  /** At most five jobs wait when only events are enqueued, and every mention adds at most one. */
  lemma {:induction false} WaitingBound(throws: Thrower, steps: seq<Step>)
    ensures |AfterAll(throws, steps).waiting| <= MAX_QUEUED_EVENTS + Mentions(steps)
  {
    if steps != [] {
      var front, last := steps[..|steps| - 1], steps[|steps| - 1];
      WaitingBound(throws, front);
      FirstInFirstOut(throws, front);
      var p := AfterAll(throws, front);
      match last
      case Settle => AdvanceIsOrderly(throws, Progress(p.finished + p.running, [], p.waiting));
      case Enqueue(e) => AdvanceIsOrderly(throws, p.(waiting := p.waiting + [Work(e, false)]));
      case EnqueueEvent(e) =>
        if !Refused(p, last) {
          AdvanceIsOrderly(throws, p.(waiting := p.waiting + [Work(e, true)]));
        }
    }
  }

  /** No wake-up is lost: once the running and the waiting jobs have settled, all are finished. */
  lemma {:induction false} EveryJobRuns(throws: Thrower, steps: seq<Step>, settles: nat)
    requires settles >= |AfterAll(throws, steps).running| + |AfterAll(throws, steps).waiting|
    ensures AfterAll(throws, steps + seq(settles, _ => Settle)) == Progress(Enqueued(throws, steps), [], [])
    decreases settles
  {
    var p := AfterAll(throws, steps);
    FirstInFirstOut(throws, steps);
    if settles == 0 {
      assert steps + seq(settles, _ => Settle) == steps;
    } else {
      var next := steps + [Settle];
      assert next[..|next| - 1] == steps;
      assert next + seq(settles - 1, _ => Settle) == steps + seq(settles, _ => Settle);
      AdvanceIsOrderly(throws, Progress(p.finished + p.running, [], p.waiting));
      FirstInFirstOut(throws, next);
      EveryJobRuns(throws, next, settles - 1);
    }
  }

  datatype Outcome = Resolved | Rejected(error: string)

  class ChannelQueue {
    const throws: Thrower
    var queue: seq<Work>
    var processing: bool

    ghost var finished: seq<Work>
    ghost var running: seq<Work>

    ghost function Now(): Progress
      reads this
    {
      Progress(finished, running, queue)
    }

    /** Holds whenever control is back at the event loop. */
    ghost predicate Valid()
      reads this
    {
      Orderly(Now()) && processing == (running != [])
    }

    constructor (throws: Thrower)
      ensures Valid() && this.throws == throws && Now() == NOTHING
    {
      this.throws, queue, processing, finished, running := throws, [], false, [], [];
    }

    method Enqueue(work: Work)
      requires Valid() && (work.scheduled ==> |queue| < MAX_QUEUED_EVENTS)
      modifies this
      ensures Valid() && Now() == Advance(throws, old(Now()).(waiting := old(queue) + [work]))
      ensures Now().History() == old(Now()).History() + [work] && old(finished) <= finished
    {
      queue := queue + [work];
      ProcessNext();
      assert old(Now()).History() + [work] == old(finished) + old(running) + (old(queue) + [work]);
    }

    method Size() returns (size: nat)
      ensures size == |queue|
    {
      size := |queue|;
    }

    /** Up to the await of the next job; a job that throws at once goes straight to the rest. */
    method ProcessNext()
      requires |running| <= 1 && EventsUpFront(queue) && processing == (running != [])
      modifies this
      ensures Valid() && Now() == Advance(throws, old(Now()))
      ensures Now().History() == old(Now()).History() && old(finished) <= finished
      decreases |queue|, 0
    {
      AdvanceIsOrderly(throws, Now());
      if processing || |queue| == 0 {
        return;
      }
      processing := true;
      var work := queue[0];
      queue := queue[1..];
      running := [work];
      if throws(work) {
        RestUpFront(old(queue));
        Settled(Rejected("thrown at once"));
      }
    }

    /** From the await of the running job to the end; a rejection is only logged. */
    method Settled(outcome: Outcome)
      requires processing && |running| == 1 && EventsUpFront(queue)
      modifies this
      ensures Valid() && Now() == Advance(throws, Progress(old(finished + running), [], old(queue)))
      ensures Now().History() == old(Now()).History() && old(finished) + old(running) <= finished
      decreases |queue|, 1
    {
      finished, running := finished + running, [];
      processing := false;
      ProcessNext();
    }
  }

  class SlackBot {
    const throws: Thrower
    var queues: map<string, ChannelQueue>

    /** Every channel has a queue of its own. */
    ghost predicate Valid()
      reads this, queues.Values
    {
      && (forall c <- queues :: queues[c].Valid() && queues[c].throws == throws)
      && forall c <- queues, d <- queues :: queues[c] == queues[d] ==> c == d
    }

    ghost function Of(channel: string): Progress
      reads this, queues.Values
    {
      if channel in queues then queues[channel].Now() else NOTHING
    }

    constructor (throws: Thrower)
      ensures Valid() && this.throws == throws && queues == map[]
    {
      this.throws, queues := throws, map[];
    }

    method GetQueue(channel: string) returns (queue: ChannelQueue)
      requires Valid()
      modifies this
      ensures Valid() && channel in queues && queues[channel] == queue && queue.Now() == old(Of(channel))
      ensures queues.Keys == old(queues).Keys + {channel}
      ensures forall c <- old(queues) :: queues[c] == old(queues[c])
      ensures channel !in old(queues) ==> fresh(queue)
    {
      if channel in queues {
        queue := queues[channel];
      } else {
        queue := new ChannelQueue(throws);
        queues := queues[channel := queue];
      }
    }

    /** Queues a scheduled event unless five jobs are waiting; no other channel is affected. */
    method EnqueueEvent(event: SlackEvent) returns (accepted: bool)
      requires Valid()
      modifies this, queues.Values
      ensures Valid() && accepted == (|old(Of(event.channel)).waiting| < MAX_QUEUED_EVENTS)
      ensures Of(event.channel) == After(throws, old(Of(event.channel)), Step.EnqueueEvent(event))
      ensures forall c :: c != event.channel ==> Of(c) == old(Of(c))
    {
      var queue := GetQueue(event.channel);
      var size := queue.Size();
      if size >= MAX_QUEUED_EVENTS {
        return false;
      }
      queue.Enqueue(Work(event, true));
      accepted := true;
    }
  }
}
