/** The events of a run, read back as a list of turns. */
module TraceLanguage {
  import opened AgentTypes
  import opened RunProtocol
  import opened RunTheorems
  import opened Wrappers

  /** One turn: the injected messages, the reply as it was shown and as it ended, the tool events
      and the results they led to. */
  datatype Turn = Turn(
    injected: seq<Message>, shown: seq<Message>, reply: AssistantMessage, work: seq<AgentEvent>, results: seq<Message>)

  function Announced(ms: seq<Message>): seq<AgentEvent> {
    if ms == [] then []
    else Announced(ms[..|ms| - 1]) + [MessageStart(ms[|ms| - 1]), MessageEnd(ms[|ms| - 1])]
  }

  /** One `message_start`, then `message_update`s. */
  function Shown(ms: seq<Message>): seq<AgentEvent> {
    if ms == [] then []
    else Shown(ms[..|ms| - 1]) + [if |ms| == 1 then MessageStart(ms[0]) else MessageUpdate(ms[|ms| - 1])]
  }

  function Opening(injected: seq<Message>): seq<AgentEvent> {
    [TurnStart] + Announced(injected)
  }

  function Replied(injected: seq<Message>, shown: seq<Message>, reply: AssistantMessage, work: seq<AgentEvent>)
    : seq<AgentEvent>
  {
    Opening(injected) + Shown(shown) + [MessageEnd(Assistant(reply))] + work
  }

  function Render(t: Turn): seq<AgentEvent> {
    Replied(t.injected, t.shown, t.reply, t.work) + [TurnEnd(Assistant(t.reply), t.results)]
  }

  function RenderAll(ts: seq<Turn>): seq<AgentEvent> {
    if ts == [] then [] else RenderAll(ts[..|ts| - 1]) + Render(ts[|ts| - 1])
  }

  /** The phase that tool events lead to. */
  function Replay(p: Phase, work: seq<AgentEvent>): Option<Phase> {
    if work == [] then Some(p)
    else match Replay(p, work[..|work| - 1])
      case None => None
      case Some(q) => NextPhase(q, work[|work| - 1])
  }

  function WorkBegins(reply: AssistantMessage): Phase {
    Working(Work(reply, 0, [], multiset{}))
  }

  /** The reply is shown as at least one assistant message; a failed one has no tool events, and
      the tool events of another start every call in order, end each once and report each. */
  predicate WellFormed(t: Turn) {
    && t.shown != [] && (forall m :: m in t.shown ==> m.Assistant?)
    && if t.reply.Failed() then t.work == [] && t.results == []
       else
         Replay(WorkBegins(t.reply), t.work) ==
         Some(Working(Work(t.reply, |t.reply.ToolCalls()|, t.results, multiset{})))
  }

  predicate AllWellFormed(ts: seq<Turn>) {
    forall t :: t in ts ==> WellFormed(t)
  }

  /** A run stops at its first failed reply. */
  predicate FailsLastOnly(ts: seq<Turn>) {
    forall i :: 0 <= i < |ts| - 1 ==> !ts[i].reply.Failed()
  }

  datatype Story =
    | Silent
    | Greeted
    | Opened(turns: seq<Turn>, injected: seq<Message>, announced: Option<Message>)
    | Streamed(turns: seq<Turn>, injected: seq<Message>, shown: seq<Message>)
    | Worked(
        turns: seq<Turn>, injected: seq<Message>, shown: seq<Message>, reply: AssistantMessage, work: seq<AgentEvent>)
    | Closed(turns: seq<Turn>)
    | Told(turns: seq<Turn>, tail: seq<AgentEvent>, messages: seq<Message>)

  function RenderStory(s: Story): seq<AgentEvent> {
    match s
    case Silent => []
    case Greeted => [AgentStart]
    case Opened(ts, inj, ann) => [AgentStart] + RenderAll(ts) + Tail(s)
    case Streamed(ts, inj, shown) => [AgentStart] + RenderAll(ts) + Tail(s)
    case Worked(ts, inj, shown, reply, work) => [AgentStart] + RenderAll(ts) + Tail(s)
    case Closed(ts) => [AgentStart] + RenderAll(ts) + []
    case Told(ts, tail, ms) => [AgentStart] + RenderAll(ts) + tail + [AgentEnd(ms)]
  }

  /** The events of the turn that is open. */
  function Tail(s: Story): seq<AgentEvent> {
    match s
    case Opened(_, inj, ann) => Opening(inj) + if ann.Some? then [MessageStart(ann.value)] else []
    case Streamed(_, inj, shown) => Opening(inj) + Shown(shown)
    case Worked(_, inj, shown, reply, work) => Replied(inj, shown, reply, work)
    case _ => []
  }

  function Continued(s: Story, ev: AgentEvent): Story {
    match s
    case Silent => Greeted
    case Greeted => Opened([], [], None)
    case Opened(ts, inj, ann) =>
      if ev.AgentEnd? then Told(ts, Tail(s), ev.messages)
      else if ann.Some? then Opened(ts, inj + [ann.value], None)
      else if ev.MessageStart? then Opened(ts, inj, Some(ev.message))
      else s
    case Streamed(ts, inj, shown) =>
      if ev.AgentEnd? then Told(ts, Tail(s), ev.messages)
      else if ev.MessageStart? || ev.MessageUpdate? then Streamed(ts, inj, shown + [ev.message])
      else if ev.MessageEnd? && ev.message.Assistant? then Worked(ts, inj, shown, ev.message.reply, [])
      else s
    case Worked(ts, inj, shown, reply, work) =>
      if ev.TurnEnd? then Closed(ts + [Turn(inj, shown, reply, work, ev.toolResults)])
      else Worked(ts, inj, shown, reply, work + [ev])
    case Closed(ts) =>
      if ev.TurnStart? then Opened(ts, [], None)
      else if ev.AgentEnd? then Told(ts, [], ev.messages)
      else s
    case Told(_, _, _) => s
  }

  /** The story of a log; after a request, the next message is the reply. */
  function Tell(log: Log): Story {
    if log == [] then Silent
    else
      var s := Tell(log[..|log| - 1]);
      match log[|log| - 1]
      case Emit(ev, _, _) => Continued(s, ev)
      case Request(_) => if s.Opened? then Streamed(s.turns, s.injected, []) else s
      case _ => s
  }

  predicate SoundTurns(ts: seq<Turn>) {
    AllWellFormed(ts) && FailsLastOnly(ts)
  }

  predicate NoneFailed(ts: seq<Turn>) {
    AllWellFormed(ts) && forall i :: 0 <= i < |ts| ==> !ts[i].reply.Failed()
  }

  /** How the story stands in each phase of the protocol. */
  ghost predicate Matches(s: Story, p: Phase) {
    match p
    case Init(_) => s.Silent?
    case Begun(_) => s.Greeted?
    case Injecting(_, _) => s.Opened? && s.announced.None? && NoneFailed(s.turns)
    case InjectOpen(q, _) => s.Opened? && q != [] && s.announced == Some(q[0]) && NoneFailed(s.turns)
    case Asked => s.Streamed? && s.shown == [] && NoneFailed(s.turns)
    case Streaming => s.Streamed? && s.shown != [] && AllAssistant(s.shown) && NoneFailed(s.turns)
    case Working(w) => MatchesWork(s, p, w.reply)
    case Reporting(w, _, _) => MatchesWork(s, p, w.reply)
    case Failing(reply) =>
      && s.Worked? && s.reply == reply && reply.Failed() && s.work == []
      && s.shown != [] && AllAssistant(s.shown) && NoneFailed(s.turns)
    case Settled(_) => s.Closed? && s.turns != [] && NoneFailed(s.turns)
    case Quiet => s.Closed? && s.turns != [] && NoneFailed(s.turns)
    case Between(_) => s.Closed? && s.turns != [] && NoneFailed(s.turns)
    case Stopping => s.Closed? && s.turns != [] && SoundTurns(s.turns)
    case Crashed(_) => s.Streamed? && AllAssistant(s.shown) && NoneFailed(s.turns)
    case Over(crashed) =>
      s.Told? && SoundTurns(s.turns) && EndsProperly(s.turns, s.tail) && (s.tail != [] <==> crashed)
  }

  predicate AllAssistant(ms: seq<Message>) {
    forall m :: m in ms ==> m.Assistant?
  }

  predicate MatchesWork(s: Story, p: Phase, reply: AssistantMessage) {
    && s.Worked? && s.reply == reply && !reply.Failed()
    && s.shown != [] && AllAssistant(s.shown) && NoneFailed(s.turns)
    && Replay(WorkBegins(reply), s.work) == Some(p)
  }

  /** Either every turn is closed and there is one, or the run crashed while a reply was awaited
      or shown, after turns that did not fail. */
  ghost predicate EndsProperly(ts: seq<Turn>, tail: seq<AgentEvent>) {
    if tail == [] then ts != []
    else NoneFailed(ts) && exists inj, shown :: AllAssistant(shown) && tail == Opening(inj) + Shown(shown)
  }

  lemma ShownSnoc(ms: seq<Message>, m: Message)
    ensures Shown(ms + [m]) == Shown(ms) + [if ms == [] then MessageStart(m) else MessageUpdate(m)]
  {
    assert (ms + [m])[..|ms|] == ms;
  }

  lemma RenderAllSnoc(ts: seq<Turn>, t: Turn)
    ensures RenderAll(ts + [t]) == RenderAll(ts) + Render(t)
  {
    assert (ts + [t])[..|ts|] == ts;
  }

  lemma AnnouncedSnoc(ms: seq<Message>, m: Message)
    ensures Announced(ms + [m]) == Announced(ms) + [MessageStart(m), MessageEnd(m)]
  {
    assert (ms + [m])[..|ms|] == ms;
  }

  lemma ReplaySnoc(p: Phase, work: seq<AgentEvent>, ev: AgentEvent)
    requires Replay(p, work).Some?
    ensures Replay(p, work + [ev]) == NextPhase(Replay(p, work).value, ev)
  {
    assert (work + [ev])[..|work|] == work;
  }

  predicate Underway(s: Story) {
    s.Opened? || s.Streamed? || s.Worked?
  }

  lemma TailGrows(s: Story, s': Story, ev: AgentEvent)
    requires Underway(s) && Underway(s') && s'.turns == s.turns && Tail(s') == Tail(s) + [ev]
    ensures RenderStory(s') == RenderStory(s) + [ev]
  {
  }

  lemma OpenStep(s: Story, p: Phase, ev: AgentEvent)
    requires (p.Injecting? || p.InjectOpen?) && Matches(s, p) && NextPhase(p, ev).Some?
    ensures Matches(Continued(s, ev), NextPhase(p, ev).value)
    ensures RenderStory(Continued(s, ev)) == RenderStory(s) + [ev]
  {
    if p.InjectOpen? {
      InjectionClosed(s, ev);
    } else {
      InjectionOpened(s, ev);
    }
  }

  lemma InjectionOpened(s: Story, ev: AgentEvent)
    requires s.Opened? && s.announced.None? && ev.MessageStart?
    ensures RenderStory(Continued(s, ev)) == RenderStory(s) + [ev]
  {
    var s' := Opened(s.turns, s.injected, Some(ev.message));
    assert Tail(s') == Tail(s) + [ev];
    TailGrows(s, s', ev);
  }

  lemma InjectionClosed(s: Story, ev: AgentEvent)
    requires s.Opened? && ev.MessageEnd? && s.announced == Some(ev.message)
    ensures RenderStory(Continued(s, ev)) == RenderStory(s) + [ev]
  {
    var s' := Opened(s.turns, s.injected + [ev.message], None);
    AnnouncedSnoc(s.injected, ev.message);
    assert Tail(s') == Tail(s) + [ev];
    TailGrows(s, s', ev);
  }

  lemma StreamStep(s: Story, p: Phase, ev: AgentEvent)
    requires (p.Asked? || p.Streaming?) && Matches(s, p) && NextPhase(p, ev).Some?
    ensures Matches(Continued(s, ev), NextPhase(p, ev).value)
    ensures RenderStory(Continued(s, ev)) == RenderStory(s) + [ev]
  {
    if ev.MessageEnd? {
      ReplyEndsStory(s, ev);
      ReplyEndMatches(s, p, ev);
    } else {
      ReplyShown(s, p, ev);
    }
  }

  lemma ReplyShown(s: Story, p: Phase, ev: AgentEvent)
    requires (p.Asked? || p.Streaming?) && Matches(s, p) && NextPhase(p, ev).Some? && !ev.MessageEnd?
    ensures Matches(Continued(s, ev), NextPhase(p, ev).value)
    ensures RenderStory(Continued(s, ev)) == RenderStory(s) + [ev]
  {
    var s' := Streamed(s.turns, s.injected, s.shown + [ev.message]);
    assert Continued(s, ev) == s' && NextPhase(p, ev) == Some(Streaming);
    assert AllAssistant(s'.shown);
    ReplyRendered(s, ev);
  }

  lemma ReplyRendered(s: Story, ev: AgentEvent)
    requires s.Streamed? && (if s.shown == [] then ev.MessageStart? else ev.MessageUpdate?)
    ensures RenderStory(Streamed(s.turns, s.injected, s.shown + [ev.message])) == RenderStory(s) + [ev]
  {
    var m := ev.message;
    var next := if s.shown == [] then MessageStart(m) else MessageUpdate(m);
    assert next == ev;
    ReplyTail(s.turns, s.injected, s.shown, m, next);
  }

  lemma ReplyTail(ts: seq<Turn>, inj: seq<Message>, shown: seq<Message>, m: Message, next: AgentEvent)
    requires next == if shown == [] then MessageStart(m) else MessageUpdate(m)
    ensures RenderStory(Streamed(ts, inj, shown + [m])) == RenderStory(Streamed(ts, inj, shown)) + [next]
  {
    ShownTail(Opening(inj), shown, m);
    TailGrows(Streamed(ts, inj, shown), Streamed(ts, inj, shown + [m]), next);
  }

  lemma ShownTail(opening: seq<AgentEvent>, shown: seq<Message>, m: Message)
    ensures shown == [] ==> opening + Shown(shown + [m]) == opening + Shown(shown) + [MessageStart(m)]
    ensures shown != [] ==> opening + Shown(shown + [m]) == opening + Shown(shown) + [MessageUpdate(m)]
  {
    ShownSnoc(shown, m);
  }

  lemma ReplyEndMatches(s: Story, p: Phase, ev: AgentEvent)
    requires p.Streaming? && Matches(s, p) && ev.MessageEnd? && NextPhase(p, ev).Some?
    ensures Matches(Continued(s, ev), NextPhase(p, ev).value)
  {
    var reply := ev.message.reply;
    var s' := Worked(s.turns, s.injected, s.shown, reply, []);
    assert Continued(s, ev) == s';
    if reply.Failed() {
      assert NextPhase(p, ev) == Some(Failing(reply));
    } else {
      assert NextPhase(p, ev) == Some(WorkBegins(reply));
      assert MatchesWork(s', WorkBegins(reply), reply);
    }
  }

  lemma ReplyEndsStory(s: Story, ev: AgentEvent)
    requires s.Streamed? && ev.MessageEnd? && ev.message.Assistant?
    ensures RenderStory(Continued(s, ev)) == RenderStory(s) + [ev]
  {
    var s' := Continued(s, ev);
    assert Tail(s') == Tail(s) + [ev];
    TailGrows(s, s', ev);
  }

  lemma WorkStep(s: Story, p: Phase, ev: AgentEvent)
    requires (p.Working? || p.Reporting?) && MatchesWork(s, p, p.work.reply) && NextPhase(p, ev).Some? && !ev.TurnEnd?
    ensures MatchesWork(Continued(s, ev), NextPhase(p, ev).value, p.work.reply)
    ensures NextPhase(p, ev).value.Working? || NextPhase(p, ev).value.Reporting?
    ensures (NextPhase(p, ev).value.work.reply) == p.work.reply
    ensures RenderStory(Continued(s, ev)) == RenderStory(s) + [ev]
  {
    ReplaySnoc(WorkBegins(p.work.reply), s.work, ev);
    WorkShown(s, ev);
    SameReply(p, ev);
  }

  lemma SameReply(p: Phase, ev: AgentEvent)
    requires (p.Working? || p.Reporting?) && NextPhase(p, ev).Some? && !ev.TurnEnd?
    ensures NextPhase(p, ev).value.Working? || NextPhase(p, ev).value.Reporting?
    ensures NextPhase(p, ev).value.work.reply == p.work.reply
  {
  }

  lemma WorkShown(s: Story, ev: AgentEvent)
    requires s.Worked? && !ev.TurnEnd?
    ensures RenderStory(Continued(s, ev)) == RenderStory(s) + [ev]
  {
    var s' := Worked(s.turns, s.injected, s.shown, s.reply, s.work + [ev]);
    assert Tail(s') == Tail(s) + [ev];
    TailGrows(s, s', ev);
  }

  lemma CloseStep(s: Story, p: Phase, ev: AgentEvent)
    requires (p.Working? || p.Failing?) && Matches(s, p) && NextPhase(p, ev).Some? && ev.TurnEnd?
    ensures Matches(Continued(s, ev), NextPhase(p, ev).value)
    ensures RenderStory(Continued(s, ev)) == RenderStory(s) + [ev]
  {
    var t := Turn(s.injected, s.shown, s.reply, s.work, ev.toolResults);
    assert ev.message == Assistant(s.reply);
    TurnClosesStory(s, ev);
    assert WellFormed(t);
    assert Continued(s, ev) == Closed(s.turns + [t]);
    SoundSnoc(s.turns, t);
  }

  lemma SoundSnoc(ts: seq<Turn>, t: Turn)
    requires NoneFailed(ts) && WellFormed(t)
    ensures SoundTurns(ts + [t]) && (!t.reply.Failed() ==> NoneFailed(ts + [t]))
  {
  }

  lemma TurnClosesStory(s: Story, ev: AgentEvent)
    requires s.Worked? && ev.TurnEnd? && ev.message == Assistant(s.reply)
    ensures RenderStory(Continued(s, ev)) == RenderStory(s) + [ev]
  {
    var t := Turn(s.injected, s.shown, s.reply, s.work, ev.toolResults);
    assert ev == TurnEnd(Assistant(s.reply), ev.toolResults);
    assert Render(t) == Tail(s) + [ev];
    RenderAllSnoc(s.turns, t);
    ClosedRendering(s.turns, t, Tail(s), ev);
  }

  lemma ClosedRendering(ts: seq<Turn>, t: Turn, tail: seq<AgentEvent>, ev: AgentEvent)
    requires RenderAll(ts + [t]) == RenderAll(ts) + (tail + [ev])
    ensures [AgentStart] + RenderAll(ts + [t]) + [] == [AgentStart] + RenderAll(ts) + tail + [ev]
  {
  }

  lemma BoundaryStep(s: Story, p: Phase, ev: AgentEvent)
    requires (p.Init? || p.Begun? || p.Between? || p.Stopping?) && Matches(s, p) && NextPhase(p, ev).Some?
    ensures Matches(Continued(s, ev), NextPhase(p, ev).value)
    ensures RenderStory(Continued(s, ev)) == RenderStory(s) + [ev]
  {
    assert Opening([]) == [TurnStart];
  }

  lemma CrashStep(s: Story, p: Phase, ev: AgentEvent)
    requires p.Crashed? && Matches(s, p) && NextPhase(p, ev).Some?
    ensures Matches(Continued(s, ev), NextPhase(p, ev).value)
    ensures RenderStory(Continued(s, ev)) == RenderStory(s) + [ev]
  {
    assert Tail(s) == Opening(s.injected) + Shown(s.shown);
    assert Tail(s)[0] == TurnStart;
  }

  lemma EventStep(s: Story, p: Phase, ev: AgentEvent)
    requires Matches(s, p) && NextPhase(p, ev).Some?
    ensures Matches(Continued(s, ev), NextPhase(p, ev).value)
    ensures RenderStory(Continued(s, ev)) == RenderStory(s) + [ev]
  {
    match p
    case Injecting(_, _) => OpenStep(s, p, ev);
    case InjectOpen(_, _) => OpenStep(s, p, ev);
    case Asked => StreamStep(s, p, ev);
    case Streaming => StreamStep(s, p, ev);
    case Working(_) => if ev.TurnEnd? { CloseStep(s, p, ev); } else { WorkStep(s, p, ev); }
    case Reporting(_, _, _) => WorkStep(s, p, ev);
    case Failing(_) => CloseStep(s, p, ev);
    case Crashed(_) => CrashStep(s, p, ev);
    case _ => BoundaryStep(s, p, ev);
  }

  lemma {:induction false} StoryAlong(base: seq<Message>, prompts: seq<Message>, log: Log)
    requires Accepted(base, prompts, log)
    ensures Matches(Tell(log), Accept(base, prompts, log).value.phase)
    ensures RenderStory(Tell(log)) == Events(log)
  {
    if log != [] {
      var pre, e := log[..|log| - 1], log[|log| - 1];
      StoryAlong(base, prompts, pre);
      var m := Accept(base, prompts, pre).value;
      match e
      case Emit(ev, _, _) => EventStep(Tell(pre), m.phase, ev);
      case Request(_) => RequestStep(Tell(pre), m, e);
      case _ => QuietStep(Tell(pre), m, e);
    }
  }

  lemma RequestStep(s: Story, m: Monitor, e: Entry)
    requires Matches(s, m.phase) && e.Request? && Next(m, e).Some?
    ensures s.Opened? && Matches(Streamed(s.turns, s.injected, []), Next(m, e).value.phase)
    ensures RenderStory(Streamed(s.turns, s.injected, [])) == RenderStory(s)
  {
    assert Tail(Streamed(s.turns, s.injected, [])) == Tail(s);
  }

  lemma QuietStep(s: Story, m: Monitor, e: Entry)
    requires Matches(s, m.phase) && (e.Poll? || e.Crash?) && Next(m, e).Some?
    ensures Matches(s, Next(m, e).value.phase)
  {
  }

  // ---------------------------------------------------------------- Injected messages are no replies

  predicate PlainTurns(ts: seq<Turn>) {
    forall t <- ts :: AllPlain(t.injected)
  }

  ghost predicate PlainTail(tail: seq<AgentEvent>) {
    tail == [] || exists inj, shown :: AllPlain(inj) && AllAssistant(shown) && tail == Opening(inj) + Shown(shown)
  }

  predicate PlainPhase(p: Phase) {
    match p
    case Init(ps) => AllPlain(ps)
    case Begun(ps) => AllPlain(ps)
    case Injecting(q, _) => AllPlain(q)
    case InjectOpen(q, _) => AllPlain(q)
    case Between(q) => AllPlain(q)
    case _ => true
  }

  ghost predicate PlainStory(s: Story) {
    match s
    case Silent => true
    case Greeted => true
    case Opened(ts, inj, ann) => PlainTurns(ts) && AllPlain(inj) && (ann.Some? ==> ann.value.Plain())
    case Streamed(ts, inj, _) => PlainTurns(ts) && AllPlain(inj)
    case Worked(ts, inj, _, _, _) => PlainTurns(ts) && AllPlain(inj)
    case Closed(ts) => PlainTurns(ts)
    case Told(ts, tail, _) => PlainTurns(ts) && PlainTail(tail)
  }

  lemma PlainEvent(s: Story, p: Phase, ev: AgentEvent)
    requires Matches(s, p) && NextPhase(p, ev).Some? && PlainPhase(p) && PlainStory(s)
    ensures PlainPhase(NextPhase(p, ev).value) && PlainStory(Continued(s, ev))
  {
    match p
    case Injecting(q, _) => PlainOpening(s, p, ev);
    case InjectOpen(q, _) => PlainOpening(s, p, ev);
    case Crashed(_) =>
      assert Tail(s) == Opening(s.injected) + Shown(s.shown);
    case Working(w) =>
    case Reporting(w, _, _) =>
    case Streaming =>
    case _ =>
  }

  lemma PlainOpening(s: Story, p: Phase, ev: AgentEvent)
    requires (p.Injecting? || p.InjectOpen?) && Matches(s, p) && NextPhase(p, ev).Some?
    requires PlainPhase(p) && PlainStory(s)
    ensures PlainPhase(NextPhase(p, ev).value) && PlainStory(Continued(s, ev))
  {
    assert p.queue[0] in p.queue;
  }

  lemma {:induction false} PlainAlong(base: seq<Message>, prompts: seq<Message>, log: Log)
    requires Accepted(base, prompts, log) && AllPlain(prompts) && PlainPolls(log)
    ensures PlainPhase(Accept(base, prompts, log).value.phase) && PlainStory(Tell(log))
  {
    hide PlainStory, PlainPhase, Continued;
    if log == [] {
      PlainSilence(prompts);
    } else {
      var pre, e := log[..|log| - 1], log[|log| - 1];
      assert PlainPolls(pre) by {
        assert forall i :: 0 <= i < |pre| ==> pre[i] == log[i];
      }
      PlainAlong(base, prompts, pre);
      StoryAlong(base, prompts, pre);
      var m := Accept(base, prompts, pre).value;
      match e
      case Emit(ev, _, _) => PlainEvent(Tell(pre), m.phase, ev);
      case _ => PlainQuiet(Tell(pre), m, e);
    }
  }

  lemma PlainSilence(prompts: seq<Message>)
    requires AllPlain(prompts)
    ensures PlainPhase(Init(prompts)) && PlainStory(Silent)
  {
  }

  lemma PlainQuiet(s: Story, m: Monitor, e: Entry)
    requires Matches(s, m.phase) && !e.Emit? && Next(m, e).Some? && PlainPhase(m.phase) && PlainStory(s)
    requires e.Poll? ==> AllPlain(e.drained)
    ensures PlainPhase(Next(m, e).value.phase) && PlainStory(s)
    ensures s.Opened? ==> PlainStory(Streamed(s.turns, s.injected, []))
  {
  }

  /** The trace of a finished run: `agent_start`, complete turns of which only the last may have
      failed, then the beginning of one more turn exactly if the model's stream threw in it, and a
      single final `agent_end`. When prompts and polled messages are no replies, neither are the
      injected messages, so that every turn has exactly one reply. */
  lemma {:induction false} TraceTheorem(base: seq<Message>, prompts: seq<Message>, log: Log)
    returns (turns: seq<Turn>, tail: seq<AgentEvent>, messages: seq<Message>)
    requires Finished(base, prompts, log)
    ensures Events(log) == [AgentStart] + RenderAll(turns) + tail + [AgentEnd(messages)]
    ensures AllWellFormed(turns) && FailsLastOnly(turns) && EndsProperly(turns, tail)
    ensures tail == [] <==> !Crashes(log)
    ensures AllPlain(prompts) && PlainPolls(log) ==> PlainTurns(turns) && PlainTail(tail)
  {
    StoryAlong(base, prompts, log);
    CrashIsPhase(base, prompts, log);
    if AllPlain(prompts) && PlainPolls(log) {
      PlainAlong(base, prompts, log);
    }
    var story := Tell(log);
    turns, tail, messages := story.turns, story.tail, story.messages;
  }
}
