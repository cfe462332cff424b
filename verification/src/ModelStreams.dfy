/** The model's side of a turn: the event stream of one reply and what must be shown of it. */
module ModelStreams {
  import opened AgentTypes
  import opened Wrappers

  /** `Delta` stands for the nine content events, which all carry the reply so far; `Terminal`
      for `done` and `error`, which carry the final reply. */
  datatype StreamEvent =
    | Start(partial: AssistantMessage)
    | Delta(partial: AssistantMessage)
    | Terminal(message: AssistantMessage)

  /** How the stream goes on after its last event: its result is set without a terminal event,
      or iterating throws. A stream function that throws at once has no events. */
  datatype StreamTail = EndedWith(message: AssistantMessage) | Threw(error: string)

  datatype Reply = Reply(events: seq<StreamEvent>, tail: StreamTail)

  /** The documented protocol: `start` comes at most once. */
  predicate AtMostOneStart(events: seq<StreamEvent>) {
    forall i, j :: 0 <= i < j < |events| ==> !(events[i].Start? && events[j].Start?)
  }

  /** The events before the first terminal one. */
  function Body(events: seq<StreamEvent>): (body: seq<StreamEvent>)
    ensures |body| <= |events|
    ensures |body| < |events| ==> events[|body|].Terminal?
  {
    if events == [] || events[0].Terminal? then [] else [events[0]] + Body(events[1..])
  }

  function FinalReply(reply: Reply): Result<AssistantMessage> {
    var n := |Body(reply.events)|;
    if n < |reply.events| then Ok(reply.events[n].message)
    else match reply.tail
      case EndedWith(m) => Ok(m)
      case Threw(e) => Err(e)
  }

  /** The states of the reply that are shown: from its start on, one per event. */
  function Partials(body: seq<StreamEvent>): seq<AssistantMessage> {
    if body == [] then []
    else
      var before := Partials(body[..|body| - 1]);
      match body[|body| - 1]
      case Start(p) => before + [p]
      case Delta(p) => if before == [] then [] else before + [p]
      case Terminal(_) => before
  }

  function Updates(ps: seq<AssistantMessage>): (es: seq<AgentEvent>)
    ensures |es| == |ps|
  {
    seq(|ps|, i requires 0 <= i < |ps| => MessageUpdate(Assistant(ps[i])))
  }

  function Showing(ps: seq<AssistantMessage>): seq<AgentEvent> {
    if ps == [] then [] else [MessageStart(Assistant(ps[0]))] + Updates(ps[1..])
  }

  /** What a listener must see of one reply. */
  function StreamTrace(reply: Reply): seq<AgentEvent> {
    var ps := Partials(Body(reply.events));
    Showing(ps) + Closing(ps, FinalReply(reply))
  }

  function Closing(ps: seq<AssistantMessage>, final: Result<AssistantMessage>): seq<AgentEvent> {
    match final
    case Err(_) => []
    case Ok(m) => (if ps == [] then [MessageStart(Assistant(m))] else []) + [MessageEnd(Assistant(m))]
  }

  lemma {:induction false} BodyFrom(events: seq<StreamEvent>, i: nat)
    requires i <= |events| && forall j :: 0 <= j < i ==> !events[j].Terminal?
    ensures Body(events) == events[..i] + Body(events[i..])
  {
    if i == 0 {
      assert events[0..] == events;
    } else {
      var rest := events[1..];
      BodyFrom(rest, i - 1);
      assert rest[i - 1..] == events[i..] && events[..i] == [events[0]] + rest[..i - 1];
      assert Body(events) == [events[0]] + Body(rest);
      hide Body;
    }
  }

  /** What one more event changes in what has been shown. */
  lemma PartialsNext(events: seq<StreamEvent>, i: nat)
    requires i < |events| && AtMostOneStart(events)
    ensures var ps, ps' := Partials(events[..i]), Partials(events[..i + 1]);
      match events[i]
      case Start(p) => ps == [] && ps' == [p]
      case Delta(p) => ps' == if ps == [] then [] else ps + [p]
      case Terminal(_) => true
  {
    assert events[..i + 1][..i] == events[..i];
    if events[i].Start? {
      NothingShownWithoutStart(events[..i]);
    }
  }

  lemma ClosingParts(ps: seq<AssistantMessage>, m: AssistantMessage)
    ensures ps != [] ==> Showing(ps) + [MessageEnd(Assistant(m))] == Showing(ps) + Closing(ps, Ok(m))
    ensures ps == [] ==> Showing([m]) + [MessageEnd(Assistant(m))] == Showing(ps) + Closing(ps, Ok(m))
  {
  }

  lemma NothingCloses(ps: seq<AssistantMessage>, error: string)
    ensures Showing(ps) + Closing(ps, Err(error)) == Showing(ps)
  {
  }

  lemma TraceAtTerminal(reply: Reply, i: nat)
    requires i < |reply.events| && reply.events[i].Terminal?
    requires forall j :: 0 <= j < i ==> !reply.events[j].Terminal?
    ensures var m := reply.events[i].message;
      var ps := Partials(reply.events[..i]);
      FinalReply(reply) == Ok(m) &&
      StreamTrace(reply) == Showing(ps) + Closing(ps, Ok(m))
  {
    BodyFrom(reply.events, i);
    assert Body(reply.events) == reply.events[..i];
  }

  lemma TraceWithoutTerminal(reply: Reply)
    requires forall j :: 0 <= j < |reply.events| ==> !reply.events[j].Terminal?
    ensures var ps := Partials(reply.events);
      FinalReply(reply) == (if reply.tail.EndedWith? then Ok(reply.tail.message) else Err(reply.tail.error)) &&
      StreamTrace(reply) == Showing(ps) + Closing(ps, FinalReply(reply))
  {
    BodyFrom(reply.events, |reply.events|);
    assert Body(reply.events) == reply.events[..|reply.events|] == reply.events;
  }

  lemma ShowingSnoc(ps: seq<AssistantMessage>, p: AssistantMessage)
    requires ps != []
    ensures Showing(ps + [p]) == Showing(ps) + [MessageUpdate(Assistant(p))]
  {
    assert (ps + [p])[1..] == ps[1..] + [p];
    assert Updates(ps[1..] + [p]) == Updates(ps[1..]) + [MessageUpdate(Assistant(p))];
  }

  lemma {:induction false} NothingShownWithoutStart(body: seq<StreamEvent>)
    requires forall i :: 0 <= i < |body| ==> !body[i].Start?
    ensures Partials(body) == []
  {
    if body != [] {
      NothingShownWithoutStart(body[..|body| - 1]);
    }
  }
}
