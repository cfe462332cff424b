/** The queue that holds steering or follow-up messages until the loop polls for them. */
module MessageQueues {
  import opened AgentTypes

  datatype QueueMode = All | OneAtATimeMode

  /** What a queue in `mode` gives out when it is drained. */
  function Taken(mode: QueueMode, messages: seq<Message>): (taken: seq<Message>)
    ensures taken <= messages
    ensures mode.All? ==> taken == messages
    ensures mode.OneAtATimeMode? ==> |taken| == if messages == [] then 0 else 1
  {
    if mode.All? || messages == [] then messages else [messages[0]]
  }

  class PendingMessageQueue {
    var mode: QueueMode
    var messages: seq<Message>

    /** Everything ever enqueued and not cleared, and everything ever drained. */
    ghost var accepted: seq<Message>
    ghost var delivered: seq<Message>

    /** First in, first out, nothing lost and nothing delivered twice. */
    ghost predicate Valid()
      reads this
    {
      accepted == delivered + messages
    }

    constructor (mode: QueueMode)
      ensures Valid() && this.mode == mode && messages == [] && accepted == []
    {
      this.mode, messages, accepted, delivered := mode, [], [], [];
    }

    method Enqueue(message: Message)
      requires Valid()
      modifies this
      ensures Valid() && mode == old(mode) && delivered == old(delivered)
      ensures messages == old(messages) + [message] && accepted == old(accepted) + [message]
    {
      messages := messages + [message];
      accepted := accepted + [message];
    }

    method HasItems() returns (has: bool)
      ensures has == (messages != [])
    {
      has := |messages| > 0;
    }

    method Drain() returns (drained: seq<Message>)
      requires Valid()
      modifies this
      ensures Valid() && mode == old(mode) && accepted == old(accepted)
      ensures drained == Taken(mode, old(messages))
      ensures old(messages) == drained + messages && delivered == old(delivered) + drained
    {
      if mode == All {
        drained := messages;
        messages := [];
      } else if messages == [] {
        drained := [];
      } else {
        drained := [messages[0]];
        messages := messages[1..];
      }
      delivered := delivered + drained;
    }

    /** Drops what is queued; what was delivered stays delivered. */
    method Clear()
      requires Valid()
      modifies this
      ensures Valid() && mode == old(mode) && delivered == old(delivered)
      ensures messages == [] && accepted == delivered
    {
      messages := [];
      accepted := delivered;
    }
  }
}
