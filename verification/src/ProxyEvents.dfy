/** Rebuilding a reply from the events of the proxy, which come without it. */
module ProxyEvents {
  import opened AgentTypes
  import opened Wrappers

  datatype Kind = TextBlock | ThinkingBlock | ToolBlock

  datatype ProxyEvent =
    | Start
    | BlockStart(kind: Kind, index: nat, id: string, toolName: string)
    | BlockDelta(kind: Kind, index: nat, delta: string)
    | BlockEnd(kind: Kind, index: nat, signature: Option<string>)
    | Done(reason: StopReason, usage: string)
    | Failed(reason: StopReason, errorMessage: Option<string>, usage: string)
      /** Any other type, which is only warned about. */
    | Unknown

  /** `partialJson` is present only between a tool call's start and its end. */
  datatype Content =
    | TextContent(text: string, signature: Option<string>)
    | ThinkingContent(thinking: string, signature: Option<string>)
    | ToolCallContent(id: string, name: string, arguments: string, partialJson: Option<string>)
  {
    function Kind(): Kind {
      match this
      case TextContent(_, _) => TextBlock
      case ThinkingContent(_, _) => ThinkingBlock
      case ToolCallContent(_, _, _, _) => ToolBlock
    }
  }

  /** The reply so far; the content array may have holes, so it is a map from indices. */
  datatype Partial = Partial(
    content: map<nat, Content>, stopReason: StopReason, errorMessage: Option<string>, usage: string)

  /** What is passed on to the consumer; each carries the reply as well. */
  datatype OutEvent =
    | OutStart
    | OutBlockStart(kind: Kind, index: nat)
    | OutBlockDelta(kind: Kind, index: nat, delta: string)
    | OutBlockEnd(kind: Kind, index: nat, content: Content)
    | OutDone(reason: StopReason)
    | OutError(reason: StopReason)

  const EMPTY_OBJECT := "{}"

  /** Parses JSON that may be cut off; `None` stands for a falsy result. */
  type ArgumentParser = string -> Option<string>

  function Arguments(parse: ArgumentParser, json: string): string {
    match parse(json)
    case Some(v) => v
    case None => EMPTY_OBJECT
  }

  function NewContent(kind: Kind, id: string, toolName: string): Content {
    match kind
    case TextBlock => TextContent("", None)
    case ThinkingBlock => ThinkingContent("", None)
    case ToolBlock => ToolCallContent(id, toolName, EMPTY_OBJECT, Some(""))
  }

  predicate HoldsKind(p: Partial, index: nat, kind: Kind) {
    index in p.content && p.content[index].Kind() == kind
  }

  /** Appending to a `partialJson` that is gone appends to the text "undefined". */
  function Appended(parse: ArgumentParser, c: Content, delta: string): Content {
    match c
    case TextContent(t, s) => TextContent(t + delta, s)
    case ThinkingContent(t, s) => ThinkingContent(t + delta, s)
    case ToolCallContent(id, name, _, json) =>
      var json' := (if json.Some? then json.value else "undefined") + delta;
      ToolCallContent(id, name, Arguments(parse, json'), Some(json'))
  }

  function Ended(c: Content, signature: Option<string>): Content {
    match c
    case TextContent(t, _) => TextContent(t, signature)
    case ThinkingContent(t, _) => ThinkingContent(t, signature)
    case ToolCallContent(id, name, args, _) => ToolCallContent(id, name, args, None)
  }

  function Mismatch(kind: Kind, what: string): string {
    match kind
    case TextBlock => "Received text_" + what + " for non-text content"
    case ThinkingBlock => "Received thinking_" + what + " for non-thinking content"
    case ToolBlock => "Received toolcall_" + what + " for non-toolCall content"
  }

  /** One event: the new reply and the event to pass on, or the error thrown. */
  function Process(parse: ArgumentParser, p: Partial, ev: ProxyEvent): Result<(Partial, Option<OutEvent>)> {
    match ev
    case Start => Ok((p, Some(OutStart)))
    case BlockStart(kind, i, id, name) =>
      Ok((p.(content := p.content[i := NewContent(kind, id, name)]), Some(OutBlockStart(kind, i))))
    case BlockDelta(kind, i, delta) =>
      if HoldsKind(p, i, kind) then
        Ok((p.(content := p.content[i := Appended(parse, p.content[i], delta)]), Some(OutBlockDelta(kind, i, delta))))
      else Err(Mismatch(kind, "delta"))
    case BlockEnd(kind, i, signature) =>
      if HoldsKind(p, i, kind) then
        var c := Ended(p.content[i], signature);
        Ok((p.(content := p.content[i := c]), Some(OutBlockEnd(kind, i, c))))
      else if kind.ToolBlock? then Ok((p, None))
      else Err(Mismatch(kind, "end"))
    case Done(reason, usage) => Ok((p.(stopReason := reason, usage := usage), Some(OutDone(reason))))
    case Failed(reason, message, usage) =>
      Ok((p.(stopReason := reason, errorMessage := message, usage := usage), Some(OutError(reason))))
    case Unknown => Ok((p, None))
  }

  function ProcessAll(parse: ArgumentParser, p: Partial, evs: seq<ProxyEvent>): Result<Partial> {
    if evs == [] then Ok(p)
    else
      match ProcessAll(parse, p, evs[..|evs| - 1])
      case Err(e) => Err(e)
      case Ok(q) =>
        match Process(parse, q, evs[|evs| - 1])
        case Err(e) => Err(e)
        case Ok((q', _)) => Ok(q')
  }

  // ---------------------------------------------------------------- What the events say

  /** The position after the last start of the block at `i`, or 0 if it has none. */
  function Since(evs: seq<ProxyEvent>, i: nat): (n: nat)
    ensures n <= |evs|
    ensures n > 0 ==> evs[n - 1].BlockStart? && evs[n - 1].index == i
    ensures forall j :: n <= j < |evs| ==> !(evs[j].BlockStart? && evs[j].index == i)
  {
    if evs == [] then 0
    else
      var last := evs[|evs| - 1];
      if last.BlockStart? && last.index == i then |evs| else Since(evs[..|evs| - 1], i)
  }

  predicate StartedAs(evs: seq<ProxyEvent>, i: nat, kind: Kind) {
    Since(evs, i) > 0 && evs[Since(evs, i) - 1].kind == kind
  }

  /** The concatenated deltas for `i` among `evs`. */
  function Deltas(evs: seq<ProxyEvent>, i: nat): string {
    if evs == [] then ""
    else
      var last := evs[|evs| - 1];
      Deltas(evs[..|evs| - 1], i) + if last.BlockDelta? && last.index == i then last.delta else ""
  }

  predicate HasDelta(evs: seq<ProxyEvent>, i: nat) {
    exists k :: 0 <= k < |evs| && evs[k].BlockDelta? && evs[k].index == i
  }

  predicate HasEnd(evs: seq<ProxyEvent>, i: nat) {
    exists k :: 0 <= k < |evs| && evs[k].BlockEnd? && evs[k].index == i && evs[k].kind.ToolBlock?
  }

  /** Every delta, and every end of a text or thinking block, comes after a start of its kind that
      is the last start at its index. */
  predicate KindsMatch(evs: seq<ProxyEvent>) {
    forall k :: 0 <= k < |evs| ==> Fits(evs[..k], evs[k])
  }

  predicate Fits(before: seq<ProxyEvent>, ev: ProxyEvent) {
    && (ev.BlockDelta? ==> StartedAs(before, ev.index, ev.kind))
    && (ev.BlockEnd? && !ev.kind.ToolBlock? ==> StartedAs(before, ev.index, ev.kind))
  }

  /** The position after the last delta for `i`, or 0 if there is none. */
  function LastDelta(evs: seq<ProxyEvent>, i: nat): (n: nat)
    ensures n <= |evs|
  {
    if evs == [] then 0
    else if evs[|evs| - 1].BlockDelta? && evs[|evs| - 1].index == i then |evs|
    else LastDelta(evs[..|evs| - 1], i)
  }

  /** The position after the last end of a tool call at `i`, or 0 if there is none. */
  function LastEnd(evs: seq<ProxyEvent>, i: nat): (n: nat)
    ensures n <= |evs|
  {
    if evs == [] then 0
    else if evs[|evs| - 1].BlockEnd? && evs[|evs| - 1].index == i && evs[|evs| - 1].kind.ToolBlock? then |evs|
    else LastEnd(evs[..|evs| - 1], i)
  }

  /** The signature that the last end of a block of this kind at `i` carries. */
  function SignatureOf(evs: seq<ProxyEvent>, i: nat, kind: Kind): Option<string> {
    if evs == [] then None
    else
      var last := evs[|evs| - 1];
      if last.BlockEnd? && last.index == i && last.kind == kind then last.signature
      else SignatureOf(evs[..|evs| - 1], i, kind)
  }

  /** The JSON text from the deltas after position `e`, which is 0 or comes after an end. */
  function JsonFrom(e: nat, evs: seq<ProxyEvent>, i: nat): string
    requires e <= |evs|
  {
    (if e > 0 then "undefined" else "") + Deltas(evs[e..], i)
  }

  /** The JSON text of a tool call, from the events after its start: its deltas, but where an end
      comes before the last of them, only those since that end, after the text "undefined". */
  function JsonText(after: seq<ProxyEvent>, i: nat): string {
    JsonFrom(LastEnd(after[..LastDelta(after, i)], i), after, i)
  }

  lemma SinceSnoc(evs: seq<ProxyEvent>, ev: ProxyEvent, i: nat)
    ensures Since(evs + [ev], i) == if ev.BlockStart? && ev.index == i then |evs| + 1 else Since(evs, i)
  {
    assert (evs + [ev])[..|evs|] == evs;
  }

  lemma KindsMatchSnoc(evs: seq<ProxyEvent>, ev: ProxyEvent)
    ensures KindsMatch(evs + [ev]) <==> KindsMatch(evs) && Fits(evs, ev)
  {
    var all := evs + [ev];
    assert all[..|evs|] == evs && all[|evs|] == ev;
    forall k | 0 <= k < |evs| ensures all[..k] == evs[..k] && all[k] == evs[k] {
    }
  }

  lemma ProcessAllSnoc(parse: ArgumentParser, p: Partial, evs: seq<ProxyEvent>, ev: ProxyEvent)
    ensures ProcessAll(parse, p, evs + [ev]) ==
      match ProcessAll(parse, p, evs)
      case Err(e) => Err(e)
      case Ok(q) =>
        match Process(parse, q, ev)
        case Err(e) => Err(e)
        case Ok((q', _)) => Ok(q')
  {
    assert (evs + [ev])[..|evs|] == evs;
  }

  // ---------------------------------------------------------------- When nothing throws

  /** The reply holds a block at `i` exactly if one has been started, of the kind last started. */
  predicate AgreesAt(evs: seq<ProxyEvent>, p: Partial, i: nat) {
    && (i in p.content <==> Since(evs, i) > 0)
    && (i in p.content ==> StartedAs(evs, i, p.content[i].Kind()))
  }

  ghost predicate KindsAgree(evs: seq<ProxyEvent>, p: Partial) {
    forall i: nat :: AgreesAt(evs, p, i)
  }

  lemma KindsAgreeSnoc(parse: ArgumentParser, evs: seq<ProxyEvent>, p: Partial, ev: ProxyEvent)
    requires KindsAgree(evs, p)
    ensures Process(parse, p, ev).Ok? <==> Fits(evs, ev)
    ensures Process(parse, p, ev).Ok? ==> KindsAgree(evs + [ev], Process(parse, p, ev).value.0)
  {
    if ev.BlockDelta? || ev.BlockEnd? {
      assert AgreesAt(evs, p, ev.index);
    }
    if Process(parse, p, ev).Ok? {
      forall i: nat ensures AgreesAt(evs + [ev], Process(parse, p, ev).value.0, i) {
        assert AgreesAt(evs, p, i);
        AgreesAtSnoc(parse, evs, p, ev, i);
      }
    }
  }

  lemma AgreesAtSnoc(parse: ArgumentParser, evs: seq<ProxyEvent>, p: Partial, ev: ProxyEvent, i: nat)
    requires AgreesAt(evs, p, i) && Process(parse, p, ev).Ok?
    ensures AgreesAt(evs + [ev], Process(parse, p, ev).value.0, i)
  {
    SinceSnoc(evs, ev, i);
    var n := Since(evs + [ev], i);
    assert 0 < n <= |evs| ==> (evs + [ev])[n - 1] == evs[n - 1];
    match ev
    case BlockStart(_, _, _, _) =>
    case BlockDelta(_, _, _) =>
    case BlockEnd(_, _, _) =>
    case _ =>
  }

  lemma {:induction false} ProcessAllAgrees(parse: ArgumentParser, p: Partial, evs: seq<ProxyEvent>)
    requires p.content == map[]
    ensures ProcessAll(parse, p, evs).Ok? <==> KindsMatch(evs)
    ensures ProcessAll(parse, p, evs).Ok? ==> KindsAgree(evs, ProcessAll(parse, p, evs).value)
  {
    if evs != [] {
      var front, last := evs[..|evs| - 1], evs[|evs| - 1];
      assert evs == front + [last];
      ProcessAllAgrees(parse, p, front);
      KindsMatchSnoc(front, last);
      ProcessAllSnoc(parse, p, front, last);
      if ProcessAll(parse, p, front).Ok? {
        KindsAgreeSnoc(parse, front, ProcessAll(parse, p, front).value, last);
      }
    }
  }

  /** Rebuilding a reply throws exactly when a delta, or the end of a text or thinking block, does
      not follow a start of its kind. Blocks may be interleaved and restarted at will. */
  lemma ThrowsExactlyOnKindMismatch(parse: ArgumentParser, p: Partial, evs: seq<ProxyEvent>)
    requires p.content == map[]
    ensures ProcessAll(parse, p, evs).Err? <==> !KindsMatch(evs)
  {
    ProcessAllAgrees(parse, p, evs);
  }

  // ---------------------------------------------------------------- What is rebuilt

  /** What the block at `i` must be, from its start and the events after it alone. */
  predicate RebuiltFrom(parse: ArgumentParser, start: ProxyEvent, after: seq<ProxyEvent>, i: nat, c: Content)
    requires start.BlockStart?
  {
    match c
    case TextContent(text, signature) =>
      start.kind.TextBlock? && text == Deltas(after, i) && signature == SignatureOf(after, i, TextBlock)
    case ThinkingContent(text, signature) =>
      start.kind.ThinkingBlock? && text == Deltas(after, i) && signature == SignatureOf(after, i, ThinkingBlock)
    case ToolCallContent(id, name, args, json) =>
      && start.kind.ToolBlock? && id == start.id && name == start.toolName
      && args == (if LastDelta(after, i) > 0 then Arguments(parse, JsonText(after, i)) else EMPTY_OBJECT)
      && json == (if LastEnd(after, i) > LastDelta(after, i) then None else Some(JsonText(after, i)))
  }

  predicate Rebuilt(parse: ArgumentParser, evs: seq<ProxyEvent>, i: nat, c: Content)
    requires Since(evs, i) > 0
  {
    RebuiltFrom(parse, evs[Since(evs, i) - 1], evs[Since(evs, i)..], i, c)
  }

  lemma DeltasSnoc(evs: seq<ProxyEvent>, ev: ProxyEvent, i: nat)
    ensures Deltas(evs + [ev], i) == Deltas(evs, i) + if ev.BlockDelta? && ev.index == i then ev.delta else ""
    ensures HasDelta(evs + [ev], i) <==> HasDelta(evs, i) || (ev.BlockDelta? && ev.index == i)
    ensures HasEnd(evs + [ev], i) <==> HasEnd(evs, i) || (ev.BlockEnd? && ev.index == i && ev.kind.ToolBlock?)
  {
    var all := evs + [ev];
    assert all[..|evs|] == evs && all[|evs|] == ev;
    assert forall k :: 0 <= k < |evs| ==> all[k] == evs[k];
  }

  lemma LastSnoc(evs: seq<ProxyEvent>, ev: ProxyEvent, i: nat)
    ensures LastDelta(evs + [ev], i) == if ev.BlockDelta? && ev.index == i then |evs| + 1 else LastDelta(evs, i)
    ensures LastEnd(evs + [ev], i) ==
            if ev.BlockEnd? && ev.index == i && ev.kind.ToolBlock? then |evs| + 1 else LastEnd(evs, i)
    ensures forall kind :: SignatureOf(evs + [ev], i, kind) ==
                           if ev.BlockEnd? && ev.index == i && ev.kind == kind then ev.signature
                           else SignatureOf(evs, i, kind)
  {
    assert (evs + [ev])[..|evs|] == evs;
  }

  /** After the last delta come no deltas, and the last end is the last before it or comes after. */
  lemma {:induction false} BeyondLast(evs: seq<ProxyEvent>, i: nat, n: nat)
    requires LastDelta(evs, i) <= n <= |evs|
    ensures Deltas(evs[n..], i) == ""
    ensures LastEnd(evs, i) <= n ==> LastEnd(evs[..n], i) == LastEnd(evs, i)
    decreases |evs|
  {
    if n == |evs| {
      assert evs[n..] == [] && evs[..n] == evs;
    } else {
      var front := evs[..|evs| - 1];
      BeyondLast(front, i, n);
      assert evs[n..][..|evs| - n - 1] == front[n..] && evs[..n] == front[..n];
    }
  }

  /** One more delta appends to the JSON text, or starts it anew after an end. */
  lemma JsonDelta(after: seq<ProxyEvent>, ev: ProxyEvent, i: nat)
    requires ev.BlockDelta? && ev.index == i
    ensures JsonText(after + [ev], i) ==
            (if LastEnd(after, i) > LastDelta(after, i) then "undefined" else JsonText(after, i)) + ev.delta
  {
    hide LastDelta, LastEnd, Deltas, JsonFrom;
    LastSnoc(after, ev, i);
    var all, e, d := after + [ev], LastEnd(after, i), LastDelta(after, i);
    assert all[..|all|] == all;
    JsonFromSnoc(e, after, ev, i);
    if e > d {
      BeyondLast(after, i, e);
      JsonFromNothing(e, after, i);
    } else {
      BeyondLast(after, i, d);
    }
  }

  lemma JsonFromSnoc(e: nat, evs: seq<ProxyEvent>, ev: ProxyEvent, i: nat)
    requires e <= |evs| && ev.BlockDelta? && ev.index == i
    ensures JsonFrom(e, evs + [ev], i) == JsonFrom(e, evs, i) + ev.delta
  {
    assert (evs + [ev])[e..] == evs[e..] + [ev];
    DeltasSnoc(evs[e..], ev, i);
  }

  lemma JsonFromNothing(e: nat, evs: seq<ProxyEvent>, i: nat)
    requires 0 < e <= |evs| && Deltas(evs[e..], i) == ""
    ensures JsonFrom(e, evs, i) == "undefined"
  {
  }

  lemma JsonOther(after: seq<ProxyEvent>, ev: ProxyEvent, i: nat)
    requires !(ev.BlockDelta? && ev.index == i)
    ensures JsonText(after + [ev], i) == JsonText(after, i)
  {
    hide LastDelta, LastEnd, Deltas;
    LastSnoc(after, ev, i);
    var all, d := after + [ev], LastDelta(after, i);
    assert all[..d] == after[..d];
    var e := LastEnd(after[..d], i);
    assert all[e..] == after[e..] + [ev];
    DeltasSnoc(after[e..], ev, i);
    assert Deltas(after[e..], i) + "" == Deltas(after[e..], i);
  }

  lemma {:induction false} LastIsSome(evs: seq<ProxyEvent>, i: nat)
    ensures LastDelta(evs, i) > 0 <==> HasDelta(evs, i)
    ensures LastEnd(evs, i) > 0 <==> HasEnd(evs, i)
  {
    if evs != [] {
      LastIsSome(evs[..|evs| - 1], i);
      assert evs == evs[..|evs| - 1] + [evs[|evs| - 1]];
      DeltasSnoc(evs[..|evs| - 1], evs[|evs| - 1], i);
    }
  }

  /** When no delta follows an end, as the server sends them, a tool call's arguments are the parse of
      all its deltas, or empty if it had none, and its JSON text is gone exactly if it has ended. */
  lemma InOrderIsConcatenation(parse: ArgumentParser, start: ProxyEvent, after: seq<ProxyEvent>, i: nat, c: Content)
    requires start.BlockStart? && c.ToolCallContent? && RebuiltFrom(parse, start, after, i, c)
    requires !HasEnd(after[..LastDelta(after, i)], i)
    ensures c.arguments == if HasDelta(after, i) then Arguments(parse, Deltas(after, i)) else EMPTY_OBJECT
    ensures c.partialJson == if HasEnd(after, i) then None else Some(Deltas(after, i))
  {
    var d := LastDelta(after, i);
    LastIsSome(after, i);
    LastIsSome(after[..d], i);
    BeyondLast(after, i, d);
    assert after[0..] == after && "" + Deltas(after, i) == Deltas(after, i);
  }

  /** The reply holds exactly the blocks that were started, each rebuilt from the events since its
      last start. */
  lemma {:induction false} Reconstruction(parse: ArgumentParser, p: Partial, evs: seq<ProxyEvent>, i: nat)
    requires p.content == map[] && KindsMatch(evs)
    ensures ProcessAll(parse, p, evs).Ok?
    ensures i in ProcessAll(parse, p, evs).value.content <==> Since(evs, i) > 0
    ensures Since(evs, i) > 0 ==> Rebuilt(parse, evs, i, ProcessAll(parse, p, evs).value.content[i])
  {
    ProcessAllAgrees(parse, p, evs);
    if evs != [] {
      var front, last := evs[..|evs| - 1], evs[|evs| - 1];
      assert evs == front + [last];
      KindsMatchSnoc(front, last);
      Reconstruction(parse, p, front, i);
      ProcessAllAgrees(parse, p, front);
      ProcessAllSnoc(parse, p, front, last);
      assert AgreesAt(front, ProcessAll(parse, p, front).value, i);
      RebuiltSnoc(parse, front, last, i, ProcessAll(parse, p, front).value);
    }
  }

  /** How one event at `i` after its start changes the block there. */
  lemma TouchedSnoc(parse: ArgumentParser, start: ProxyEvent, after: seq<ProxyEvent>, ev: ProxyEvent, i: nat,
                    c: Content, c': Content)
    requires start.BlockStart? && RebuiltFrom(parse, start, after, i, c)
    requires ev.BlockDelta? || ev.BlockEnd?
    requires ev.index == i && ev.kind == c.Kind()
    requires c' == if ev.BlockDelta? then Appended(parse, c, ev.delta) else Ended(c, ev.signature)
    ensures RebuiltFrom(parse, start, after + [ev], i, c')
  {
    hide LastDelta, LastEnd, SignatureOf, Deltas, JsonText, HasDelta, HasEnd;
    DeltasSnoc(after, ev, i);
    LastSnoc(after, ev, i);
    if ev.BlockDelta? {
      JsonDelta(after, ev, i);
    } else {
      JsonOther(after, ev, i);
      assert Deltas(after, i) + "" == Deltas(after, i);
    }
  }

  lemma UntouchedSnoc(parse: ArgumentParser, start: ProxyEvent, after: seq<ProxyEvent>, ev: ProxyEvent, i: nat,
                      c: Content)
    requires start.BlockStart? && RebuiltFrom(parse, start, after, i, c)
    requires (ev.BlockDelta? ==> ev.index != i) && (ev.BlockEnd? ==> ev.index != i || ev.kind != c.Kind())
    ensures RebuiltFrom(parse, start, after + [ev], i, c)
  {
    hide LastDelta, LastEnd, SignatureOf, Deltas, JsonText, HasDelta, HasEnd;
    DeltasSnoc(after, ev, i);
    LastSnoc(after, ev, i);
    JsonOther(after, ev, i);
    assert Deltas(after, i) + "" == Deltas(after, i);
  }

  /** What an event that is not a start at `i` makes of the block there. */
  function Changed(parse: ArgumentParser, ev: ProxyEvent, i: nat, c: Content): Content {
    if ev.BlockDelta? && ev.index == i then Appended(parse, c, ev.delta)
    else if ev.BlockEnd? && ev.index == i && ev.kind == c.Kind() then Ended(c, ev.signature)
    else c
  }

  lemma ChangesAt(parse: ArgumentParser, q: Partial, ev: ProxyEvent, i: nat)
    requires i in q.content && Process(parse, q, ev).Ok? && !(ev.BlockStart? && ev.index == i)
    ensures i in Process(parse, q, ev).value.0.content
    ensures Process(parse, q, ev).value.0.content[i] == Changed(parse, ev, i, q.content[i])
    ensures ev.BlockDelta? && ev.index == i ==> ev.kind == q.content[i].Kind()
  {
  }

  lemma RebuiltSnoc(parse: ArgumentParser, evs: seq<ProxyEvent>, ev: ProxyEvent, i: nat, q: Partial)
    requires AgreesAt(evs, q, i) && Process(parse, q, ev).Ok?
    requires Since(evs, i) > 0 ==> Rebuilt(parse, evs, i, q.content[i])
    ensures var all, q' := evs + [ev], Process(parse, q, ev).value.0;
      Since(all, i) > 0 ==> i in q'.content && Rebuilt(parse, all, i, q'.content[i])
  {
    SinceSnoc(evs, ev, i);
    if ev.BlockStart? && ev.index == i {
      RestartedSnoc(parse, evs, ev, i, q);
    } else if Since(evs, i) > 0 {
      ChangesAt(parse, q, ev, i);
      ContinuedSnoc(parse, evs, ev, i, q.content[i]);
    }
  }

  lemma NothingYet(i: nat)
    ensures LastDelta([], i) == LastEnd([], i) == 0 && Deltas([], i) == JsonText([], i) == ""
    ensures forall kind :: SignatureOf([], i, kind) == None
  {
  }

  lemma RestartedSnoc(parse: ArgumentParser, evs: seq<ProxyEvent>, ev: ProxyEvent, i: nat, q: Partial)
    requires ev.BlockStart? && ev.index == i
    ensures Since(evs + [ev], i) == |evs| + 1
    ensures Rebuilt(parse, evs + [ev], i, Process(parse, q, ev).value.0.content[i])
  {
    SinceSnoc(evs, ev, i);
    var all := evs + [ev];
    assert all[|evs|] == ev && all[|evs| + 1..] == [];
    NothingYet(i);
    hide LastDelta, LastEnd, SignatureOf, Deltas, JsonText, Since;
  }

  lemma ContinuedSnoc(parse: ArgumentParser, evs: seq<ProxyEvent>, ev: ProxyEvent, i: nat, c: Content)
    requires Since(evs, i) > 0 && !(ev.BlockStart? && ev.index == i) && Rebuilt(parse, evs, i, c)
    requires ev.BlockDelta? && ev.index == i ==> ev.kind == c.Kind()
    ensures Since(evs + [ev], i) == Since(evs, i)
    ensures Rebuilt(parse, evs + [ev], i, Changed(parse, ev, i, c))
  {
    SinceSnoc(evs, ev, i);
    hide RebuiltFrom, Since;
    var all, n := evs + [ev], Since(evs, i);
    var start, after := evs[n - 1], evs[n..];
    assert all[n - 1] == start && all[n..] == after + [ev];
    if (ev.BlockDelta? || ev.BlockEnd?) && ev.index == i && ev.kind == c.Kind() {
      TouchedSnoc(parse, start, after, ev, i, c, Changed(parse, ev, i, c));
    } else {
      UntouchedSnoc(parse, start, after, ev, i, c);
    }
  }

  // ---------------------------------------------------------------- What the reply ends with

  predicate Concludes(ev: ProxyEvent) {
    ev.Done? || ev.Failed?
  }

  predicate Fails(ev: ProxyEvent) {
    ev.Failed?
  }

  /** `n` is the position after the last event that passes the test, or 0 if none does. */
  predicate LastOf(evs: seq<ProxyEvent>, test: ProxyEvent -> bool, n: nat) {
    n <= |evs| && (n > 0 ==> test(evs[n - 1])) && forall ev <- evs[n..] :: !test(ev)
  }

  /** The stop reason and the usage are those of the last event that ends the stream, and the error
      message that of the last which failed; each is as before if there is no such event. */
  ghost predicate Concluded(p: Partial, evs: seq<ProxyEvent>, p': Partial) {
    && (forall n: nat :: LastOf(evs, Concludes, n) ==>
          && p'.stopReason == (if n > 0 then evs[n - 1].reason else p.stopReason)
          && p'.usage == if n > 0 then evs[n - 1].usage else p.usage)
    && (forall n: nat :: LastOf(evs, Fails, n) ==>
          p'.errorMessage == if n > 0 then evs[n - 1].errorMessage else p.errorMessage)
  }

  lemma LastOfFront(evs: seq<ProxyEvent>, test: ProxyEvent -> bool, n: nat)
    requires LastOf(evs, test, n) && n < |evs|
    ensures LastOf(evs[..|evs| - 1], test, n) && !test(evs[|evs| - 1])
  {
    var front, last := evs[..|evs| - 1], evs[|evs| - 1];
    assert evs[n..] == front[n..] + [last] && last in evs[n..];
  }

  lemma {:induction false} LastConclusion(parse: ArgumentParser, p: Partial, evs: seq<ProxyEvent>, n: nat)
    requires ProcessAll(parse, p, evs).Ok? && LastOf(evs, Concludes, n)
    ensures var p' := ProcessAll(parse, p, evs).value;
      && p'.stopReason == (if n > 0 then evs[n - 1].reason else p.stopReason)
      && p'.usage == if n > 0 then evs[n - 1].usage else p.usage
    decreases |evs|
  {
    if n < |evs| {
      LastOfFront(evs, Concludes, n);
      LastConclusion(parse, p, evs[..|evs| - 1], n);
    }
  }

  lemma {:induction false} LastFailure(parse: ArgumentParser, p: Partial, evs: seq<ProxyEvent>, n: nat)
    requires ProcessAll(parse, p, evs).Ok? && LastOf(evs, Fails, n)
    ensures ProcessAll(parse, p, evs).value.errorMessage == if n > 0 then evs[n - 1].errorMessage else p.errorMessage
    decreases |evs|
  {
    if n < |evs| {
      LastOfFront(evs, Fails, n);
      LastFailure(parse, p, evs[..|evs| - 1], n);
    }
  }

  lemma EndsAsConcluded(parse: ArgumentParser, p: Partial, evs: seq<ProxyEvent>)
    requires ProcessAll(parse, p, evs).Ok?
    ensures Concluded(p, evs, ProcessAll(parse, p, evs).value)
  {
    hide ProcessAll;
    forall n: nat | LastOf(evs, Concludes, n)
      ensures var p' := ProcessAll(parse, p, evs).value;
        && p'.stopReason == (if n > 0 then evs[n - 1].reason else p.stopReason)
        && p'.usage == if n > 0 then evs[n - 1].usage else p.usage
    {
      LastConclusion(parse, p, evs, n);
    }
    forall n: nat | LastOf(evs, Fails, n)
      ensures ProcessAll(parse, p, evs).value.errorMessage ==
              if n > 0 then evs[n - 1].errorMessage else p.errorMessage
    {
      LastFailure(parse, p, evs, n);
    }
  }

  /** `p'` is rebuilt from the events: block by block, and in what it ends with. */
  ghost predicate IsRebuilt(parse: ArgumentParser, p: Partial, evs: seq<ProxyEvent>, p': Partial) {
    Concluded(p, evs, p') && forall i: nat :: BlockIsRebuilt(parse, evs, i, p'.content)
  }

  /** There is a block at `i` exactly if one has been started, and it is rebuilt from the events. */
  predicate BlockIsRebuilt(parse: ArgumentParser, evs: seq<ProxyEvent>, i: nat, content: map<nat, Content>) {
    (i in content <==> Since(evs, i) > 0) && (i in content ==> Rebuilt(parse, evs, i, content[i]))
  }

  /** When kinds match, the whole reply is given by the events. */
  lemma {:induction false} WholeReply(parse: ArgumentParser, p: Partial, evs: seq<ProxyEvent>)
    requires p.content == map[] && KindsMatch(evs)
    ensures ProcessAll(parse, p, evs).Ok? && IsRebuilt(parse, p, evs, ProcessAll(parse, p, evs).value)
  {
    ProcessAllAgrees(parse, p, evs);
    EndsAsConcluded(parse, p, evs);
    forall i: nat ensures BlockIsRebuilt(parse, evs, i, ProcessAll(parse, p, evs).value.content) {
      Reconstruction(parse, p, evs, i);
    }
  }

  /** The end of a block that is passed on carries the block as it has been rebuilt. */
  lemma EndCarriesBlock(parse: ArgumentParser, p: Partial, evs: seq<ProxyEvent>, ev: ProxyEvent, c: Content)
    requires p.content == map[] && KindsMatch(evs + [ev]) && ev.BlockEnd?
    requires ProcessAll(parse, p, evs).Ok? && Process(parse, ProcessAll(parse, p, evs).value, ev).Ok?
    requires Process(parse, ProcessAll(parse, p, evs).value, ev).value.1 == Some(OutBlockEnd(ev.kind, ev.index, c))
    ensures Since(evs + [ev], ev.index) > 0 && Rebuilt(parse, evs + [ev], ev.index, c)
  {
    Reconstruction(parse, p, evs + [ev], ev.index);
    ProcessAllSnoc(parse, p, evs, ev);
  }
}
