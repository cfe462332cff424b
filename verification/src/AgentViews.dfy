/** The part of the agent's state that events change, as it follows from the log of a run. */
module AgentViews {
  import opened AgentTypes
  import opened PendingTools
  import opened RunPlots
  import opened RunProtocol
  import opened RunTheorems
  import opened Wrappers

  datatype View = View(
    messages: seq<Message>, streamingMessage: Option<Message>, pendingToolCalls: set<string>,
    errorMessage: Option<string>)

  predicate Tells(m: Message) {
    m.Assistant? && m.reply.errorMessage.Some? && m.reply.errorMessage.value != ""
  }

  function Reduce(v: View, ev: AgentEvent): View {
    match ev
    case MessageStart(m) => v.(streamingMessage := Some(m))
    case MessageUpdate(m) => v.(streamingMessage := Some(m))
    case MessageEnd(m) => v.(streamingMessage := None, messages := v.messages + [m])
    case ToolStart(id, _, _) => v.(pendingToolCalls := v.pendingToolCalls + {id})
    case ToolEnd(id, _, _, _) => v.(pendingToolCalls := v.pendingToolCalls - {id})
    case TurnEnd(m, _) => if Tells(m) then v.(errorMessage := m.reply.errorMessage) else v
    case AgentEnd(_) => v.(streamingMessage := None)
    case _ => v
  }

  /** The view after a whole log, for a run that starts on the transcript `base`. */
  function ViewAfter(base: seq<Message>, log: Log): View {
    if log == [] then View(base, None, {}, None)
    else
      var before := ViewAfter(base, log[..|log| - 1]);
      match log[|log| - 1]
      case Emit(ev, _, _) => Reduce(before, ev)
      case Crash(f) => before.(messages := before.messages + [Assistant(f)], errorMessage := f.errorMessage)
      case _ => before
  }

  /** The agent's own transcript is the starting one and then what ended, and its pending set is
      the fold of the tool events. */
  lemma {:induction false} ViewIsFold(base: seq<Message>, log: Log)
    ensures ViewAfter(base, log).messages == base + Ended(log)
    ensures ViewAfter(base, log).pendingToolCalls == Pending(log)
  {
    if log == [] {
      assert base + [] == base;
    } else {
      ViewIsFold(base, log[..|log| - 1]);
    }
  }

  // ---------------------------------------------------------------- The message shown

  predicate Shows(e: Entry) {
    e.Emit? && (e.event.MessageStart? || e.event.MessageUpdate?)
  }

  predicate Hides(e: Entry) {
    e.Emit? && (e.event.MessageEnd? || e.event.AgentEnd?)
  }

  /** The streaming message is the message of the last `message_start` or `message_update`, if neither
      a `message_end` nor an `agent_end` follows it, and otherwise none. */
  lemma {:induction false} StreamingMessageByPosition(base: seq<Message>, log: Log, i: nat)
    requires i <= |log| && forall e <- log[i..] :: !Shows(e) && !Hides(e)
    requires i > 0 ==> Shows(log[i - 1]) || Hides(log[i - 1])
    ensures ViewAfter(base, log).streamingMessage ==
            if i > 0 && Shows(log[i - 1]) then Some(log[i - 1].event.message) else None
    decreases |log|
  {
    if i < |log| {
      var front, last := log[..|log| - 1], log[|log| - 1];
      assert log[i..] == front[i..] + [last] && last in log[i..];
      StreamingMessageByPosition(base, front, i);
    }
  }

  /** The entry sets the agent's error message. */
  predicate Reports(e: Entry) {
    e.Crash? || (e.Emit? && e.event.TurnEnd? && Tells(e.event.message))
  }

  /** The error message is that of the last `turn_end` whose reply carries one, or that of a crash
      after it; there is none if nothing of the kind has happened in the run. */
  lemma {:induction false} ErrorMessageByPosition(base: seq<Message>, log: Log, i: nat)
    requires i <= |log| && forall e <- log[i..] :: !Reports(e)
    requires i > 0 ==> Reports(log[i - 1])
    ensures ViewAfter(base, log).errorMessage ==
            if i == 0 then None
            else if log[i - 1].Crash? then log[i - 1].failure.errorMessage
            else log[i - 1].event.message.reply.errorMessage
    decreases |log|
  {
    if i < |log| {
      var front, last := log[..|log| - 1], log[|log| - 1];
      assert log[i..] == front[i..] + [last] && last in log[i..];
      ErrorMessageByPosition(base, front, i);
    }
  }

  /** The loop's context at the last event. */
  function LastContext(log: Log): seq<Message> {
    if log == [] then []
    else if log[|log| - 1].Emit? then log[|log| - 1].context
    else LastContext(log[..|log| - 1])
  }

  /** What the agent shows is what is under way. */
  predicate UnderWay(p: Phase, shown: Option<Message>, asked: seq<Message>, context: seq<Message>) {
    match p
    case InjectOpen(q, _) => q != [] && shown == Some(q[0])
    case Streaming => shown.Some? && shown.value.Assistant? && context == asked + [shown.value]
    case Reporting(_, result, announced) => shown == if announced then Some(result) else None
    case Crashed(_) => shown.Some? ==> shown.value.Assistant? && context == asked + [shown.value]
    case _ => shown == None
  }

  lemma UnderWayStep(m: Monitor, v: View, asked: seq<Message>, context: seq<Message>, e: Entry)
    requires e.Emit? && Next(m, e).Some?
    requires UnderWay(m.phase, v.streamingMessage, asked, context) && SinceAsked(m.phase, m.Transcript(), asked)
    ensures UnderWay(Next(m, e).value.phase, Reduce(v, e.event).streamingMessage, asked, e.context)
  {
    match m.phase
    case Working(_) =>
    case Reporting(_, _, _) =>
    case Asked =>
    case Streaming =>
    case _ =>
  }

  /** At every moment of a run the streaming message is the injected message, the reply or the tool
      result that has been announced and not ended, and otherwise there is none. While a reply streams,
      it is the last message of the loop's context, after what the model was asked. */
  lemma {:induction false} StreamingMessageIsUnderWay(base: seq<Message>, prompts: seq<Message>, log: Log)
    requires Accepted(base, prompts, log)
    ensures UnderWay(Accept(base, prompts, log).value.phase, ViewAfter(base, log).streamingMessage,
                     LastAsked(log), LastContext(log))
  {
    if log != [] {
      var pre, e := log[..|log| - 1], log[|log| - 1];
      var m := Accept(base, prompts, pre).value;
      StreamingMessageIsUnderWay(base, prompts, pre);
      SinceAskedAlong(base, prompts, pre);
      if e.Emit? {
        UnderWayStep(m, ViewAfter(base, pre), LastAsked(pre), LastContext(pre), e);
      }
    }
  }
}
