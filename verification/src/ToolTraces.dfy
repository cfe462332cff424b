/** What a listener must see of the tool calls of one reply. */
module ToolTraces {
  import opened AgentTypes
  import opened Lists
  import opened PendingTools
  import opened ToolRuns

  function StartEvent(call: ToolCall): AgentEvent {
    ToolStart(call.id, call.name, call.arguments)
  }

  function UpdateEvent(call: ToolCall, partial: ToolOutput): AgentEvent {
    ToolUpdate(call.id, call.name, call.arguments, partial)
  }

  function UpdateEvents(call: ToolCall, partials: seq<ToolOutput>): seq<AgentEvent> {
    seq(|partials|, i requires 0 <= i < |partials| => UpdateEvent(call, partials[i]))
  }

  function OutcomeEvents(r: Message): seq<AgentEvent>
    requires r.ToolResult?
  {
    [ToolEnd(r.toolCallId, r.toolName, r.output, r.isError), MessageStart(r), MessageEnd(r)]
  }

  /** Everything shown of one call when calls run one after the other. */
  function CallTrace(scene: Scene, call: ToolCall): seq<AgentEvent> {
    [StartEvent(call)]
    + (if scene.Runs(call) then UpdateEvents(call, scene.Execution(call).updates) else [])
    + OutcomeEvents(scene.Outcome(call))
  }

  function SequentialTrace(scene: Scene, calls: seq<ToolCall>): seq<AgentEvent> {
    if calls == [] then []
    else SequentialTrace(scene, calls[..|calls| - 1]) + CallTrace(scene, calls[|calls| - 1])
  }

  lemma CallTraceParts(scene: Scene, call: ToolCall)
    ensures scene.Runs(call) ==>
              CallTrace(scene, call) ==
              [StartEvent(call)] + UpdateEvents(call, scene.Execution(call).updates) +
              OutcomeEvents(scene.Outcome(call))
    ensures !scene.Runs(call) ==> CallTrace(scene, call) == [StartEvent(call)] + OutcomeEvents(scene.Outcome(call))
    ensures !scene.Runs(call) ==>
              scene.Outcome(call) == ResultMessage(call, scene.Prepare(call).result, scene.Prepare(call).isError)
  {
    assert [StartEvent(call)] + [] == [StartEvent(call)];
  }

  lemma SequentialTraceSnoc(scene: Scene, calls: seq<ToolCall>, i: nat)
    requires i < |calls|
    ensures SequentialTrace(scene, calls[..i + 1]) == SequentialTrace(scene, calls[..i]) + CallTrace(scene, calls[i])
    ensures scene.InOrder(calls[..i + 1]) == scene.InOrder(calls[..i]) + [scene.Outcome(calls[i])]
  {
    assert calls[..i + 1] == calls[..i] + [calls[i]];
    MapConcat(scene.Outcome, calls[..i], [calls[i]]);
    assert calls[..i + 1][..i] == calls[..i];
  }

  /** Concurrent calls: all are started in turn, those that do not run are reported at once. */
  function PreflightTrace(scene: Scene, calls: seq<ToolCall>): seq<AgentEvent> {
    if calls == [] then []
    else PreflightTrace(scene, calls[..|calls| - 1]) + PreflightEvents(scene, calls[|calls| - 1])
  }

  function PreflightEvents(scene: Scene, call: ToolCall): seq<AgentEvent> {
    [StartEvent(call)] + if scene.Runs(call) then [] else OutcomeEvents(scene.Outcome(call))
  }

  function OpenKeys(calls: seq<ToolCall>): multiset<Key> {
    multiset(CallKeys(calls))
  }

  lemma NoOpenKeys()
    ensures OpenKeys([]) == multiset{}
  {
  }

  lemma OpenKeysSnoc(calls: seq<ToolCall>, c: ToolCall)
    ensures OpenKeys(calls + [c]) == OpenKeys(calls) + multiset{Key(c.id, c.name)}
  {
    assert CallKeys(calls + [c]) == CallKeys(calls) + [Key(c.id, c.name)];
  }

  lemma PreflightNone(scene: Scene, calls: seq<ToolCall>)
    ensures PreflightTrace(scene, calls[..0]) == []
    ensures scene.Runnable(calls[..0]) == [] && scene.InOrder(scene.Refused(calls[..0])) == []
    ensures Map(scene.Prepare, scene.Runnable(calls[..0])) == []
    ensures OpenKeys(scene.Runnable(calls[..0])) == multiset{}
  {
  }

  lemma PreflightSnoc(scene: Scene, calls: seq<ToolCall>, i: nat)
    requires i < |calls|
    ensures var front, c := calls[..i], calls[i];
      PreflightTrace(scene, calls[..i + 1]) ==
        PreflightTrace(scene, front) + PreflightEvents(scene, c) &&
      scene.Runnable(calls[..i + 1]) == scene.Runnable(front) + (if scene.Runs(c) then [c] else []) &&
      scene.InOrder(scene.Refused(calls[..i + 1])) ==
        scene.InOrder(scene.Refused(front)) + (if scene.Runs(c) then [] else [scene.Outcome(c)]) &&
      Map(scene.Prepare, scene.Runnable(calls[..i + 1])) ==
        Map(scene.Prepare, scene.Runnable(front)) + (if scene.Runs(c) then [scene.Prepare(c)] else []) &&
      OpenKeys(scene.Runnable(calls[..i + 1])) ==
        (if scene.Runs(c) then OpenKeys(scene.Runnable(front)) + multiset{Key(c.id, c.name)}
         else OpenKeys(scene.Runnable(front)))
  {
    var front, c := calls[..i], calls[i];
    assert calls[..i + 1][..i] == front;
    MapConcat(scene.Outcome, scene.Refused(front), [c]);
    MapConcat(scene.Prepare, scene.Runnable(front), [c]);
    OpenKeysSnoc(scene.Runnable(front), c);
    if scene.Runs(c) {
      assert scene.Runnable(calls[..i + 1]) == scene.Runnable(front) + [c];
    } else {
      assert scene.Runnable(calls[..i + 1]) == scene.Runnable(front);
    }
  }

  function ReportTrace(scene: Scene, calls: seq<ToolCall>): seq<AgentEvent> {
    if calls == [] then []
    else ReportTrace(scene, calls[..|calls| - 1]) + OutcomeEvents(scene.Outcome(calls[|calls| - 1]))
  }

  /** A trace without its partial results. */
  function Skeleton(es: seq<AgentEvent>): seq<AgentEvent> {
    if es == [] then []
    else
      var last := es[|es| - 1];
      Skeleton(es[..|es| - 1]) + if last.ToolUpdate? then [] else [last]
  }

  /** The partial results that a trace shows for the call `id`. */
  function UpdatesFor(id: string, es: seq<AgentEvent>): seq<ToolOutput> {
    if es == [] then []
    else
      var last := es[|es| - 1];
      UpdatesFor(id, es[..|es| - 1]) + if last.ToolUpdate? && last.toolCallId == id then [last.partial] else []
  }

  lemma SkeletonSnoc(es: seq<AgentEvent>, e: AgentEvent)
    ensures Skeleton(es + [e]) == Skeleton(es) + if e.ToolUpdate? then [] else [e]
    ensures forall id :: UpdatesFor(id, es + [e]) ==
                         UpdatesFor(id, es) + if e.ToolUpdate? && e.toolCallId == id then [e.partial] else []
  {
    assert (es + [e])[..|es|] == es;
  }

  lemma ReportSnoc(scene: Scene, runs: seq<ToolCall>, k: nat)
    requires k < |runs|
    ensures ReportTrace(scene, runs[..k + 1]) == ReportTrace(scene, runs[..k]) + OutcomeEvents(scene.Outcome(runs[k]))
    ensures scene.InOrder(runs[..k + 1]) == scene.InOrder(runs[..k]) + [scene.Outcome(runs[k])]
  {
    assert runs[..k + 1][..k] == runs[..k] && runs[..k + 1] == runs[..k] + [runs[k]];
    MapConcat(scene.Outcome, runs[..k], [runs[k]]);
  }

  lemma NoCallsNoResults(scene: Scene)
    requires scene.reply.ToolCalls() == []
    ensures ToolResults(scene) == [] && ToolsShown(scene, [])
  {
  }

  /** With the partial results left out, concurrent calls show the preflight of all calls and
      then one report per call that ran, in source order. With distinct ids, each call that ran
      shows exactly its tool's partial results, in the order the tool sent them. */
  predicate ConcurrentTrace(scene: Scene, calls: seq<ToolCall>, es: seq<AgentEvent>) {
    var runs := scene.Runnable(calls);
    && Skeleton(es) == PreflightTrace(scene, calls) + ReportTrace(scene, runs)
    && (DistinctIds(calls) ==>
          forall i :: 0 <= i < |runs| ==> UpdatesFor(runs[i].id, es) == scene.Execution(runs[i]).updates)
    && OnlyRunsUpdate(scene, calls, es)
  }

  /** A partial result of a call that runs, as its tool sent it. */
  predicate IsUpdateOf(scene: Scene, call: ToolCall, e: AgentEvent) {
    && e.ToolUpdate? && e == ToolUpdate(call.id, call.name, call.arguments, e.partial)
    && scene.Runs(call) && e.partial in scene.Execution(call).updates
  }

  /** Every partial result shown is one of a call that runs: a refused call shows none. */
  predicate OnlyRunsUpdate(scene: Scene, calls: seq<ToolCall>, es: seq<AgentEvent>) {
    forall e <- es :: e.ToolUpdate? ==> exists call <- calls :: IsUpdateOf(scene, call, e)
  }

  /** What may be shown of the tool calls of a reply. */
  predicate ToolsShown(scene: Scene, es: seq<AgentEvent>) {
    if scene.config.sequential then es == SequentialTrace(scene, scene.reply.ToolCalls())
    else ConcurrentTrace(scene, scene.reply.ToolCalls(), es)
  }

  lemma {:induction false} SequentialOnlyRunsUpdate(scene: Scene, calls: seq<ToolCall>)
    ensures OnlyRunsUpdate(scene, calls, SequentialTrace(scene, calls))
  {
    if calls != [] {
      var front, last := calls[..|calls| - 1], calls[|calls| - 1];
      SequentialOnlyRunsUpdate(scene, front);
      forall e | e in SequentialTrace(scene, calls) && e.ToolUpdate?
        ensures exists call <- calls :: IsUpdateOf(scene, call, e)
      {
        if e in SequentialTrace(scene, front) {
          var call :| call in front && IsUpdateOf(scene, call, e);
          assert call in calls;
        } else {
          assert e in CallTrace(scene, last);
          assert IsUpdateOf(scene, last, e);
        }
      }
    }
  }

  /** In either mode, no partial result is shown of a refused call: each that is shown carries the id,
      name and arguments of a call that runs, and is one that its tool sent. */
  lemma RefusedCallsShowNoUpdate(scene: Scene, es: seq<AgentEvent>, call: ToolCall)
    requires ToolsShown(scene, es) && call in scene.reply.ToolCalls() && !scene.Runs(call)
    ensures OnlyRunsUpdate(scene, scene.reply.ToolCalls(), es)
    ensures DistinctIds(scene.reply.ToolCalls()) ==> UpdatesFor(call.id, es) == []
  {
    var calls := scene.reply.ToolCalls();
    if scene.config.sequential {
      SequentialOnlyRunsUpdate(scene, calls);
    }
    if DistinctIds(calls) {
      forall e | e in es && e.ToolUpdate? ensures e.toolCallId != call.id {
        var other :| other in calls && IsUpdateOf(scene, other, e);
        assert other != call;
        var i, j :| 0 <= i < |calls| && 0 <= j < |calls| && calls[i] == call && calls[j] == other;
      }
      NoUpdatesOf(es, call.id);
    }
  }

  lemma {:induction false} NoUpdatesOf(es: seq<AgentEvent>, id: string)
    requires forall e <- es :: e.ToolUpdate? ==> e.toolCallId != id
    ensures UpdatesFor(id, es) == []
  {
    if es != [] {
      assert es[|es| - 1] in es;
      NoUpdatesOf(es[..|es| - 1], id);
    }
  }

  lemma {:induction false} NoUpdates(es: seq<AgentEvent>, id: string)
    requires forall i :: 0 <= i < |es| ==> !es[i].ToolUpdate?
    ensures Skeleton(es) == es && UpdatesFor(id, es) == []
  {
    if es != [] {
      NoUpdates(es[..|es| - 1], id);
    }
  }

  lemma {:induction false} PreflightHasNoUpdates(scene: Scene, calls: seq<ToolCall>)
    ensures forall i :: 0 <= i < |PreflightTrace(scene, calls)| ==> !PreflightTrace(scene, calls)[i].ToolUpdate?
  {
    if calls != [] {
      PreflightHasNoUpdates(scene, calls[..|calls| - 1]);
    }
  }

  lemma {:induction false} FilterKeepsDistinct(p: ToolCall -> bool, calls: seq<ToolCall>)
    requires DistinctIds(calls)
    ensures DistinctIds(Filter(p, calls))
  {
    if calls != [] {
      var front, last := calls[..|calls| - 1], calls[|calls| - 1];
      FilterKeepsDistinct(p, front);
      FilterIsPart(p, front);
      forall c | c in Filter(p, front) ensures c.id != last.id {
        var i :| 0 <= i < |front| && front[i] == c;
        assert calls[i] == c;
      }
    }
  }

  lemma RunnableDistinct(scene: Scene, calls: seq<ToolCall>)
    requires DistinctIds(calls)
    ensures DistinctIds(scene.Runnable(calls))
  {
    FilterKeepsDistinct(scene.Runs, calls);
  }
}
