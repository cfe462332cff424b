/** Reading the proxy's response: chunks in, reply and stream events out. */
module ProxyStreams {
  import opened AgentTypes
  import opened ProxyEvents
  import opened ProxyLines
  import opened Texts
  import opened Wrappers

  /** One successful read, and whether the request has been aborted when it returns. */
  datatype Chunk = Chunk(text: string, aborted: bool)

  /** How reading goes on after the chunks: the response ends, or a read is rejected. */
  datatype Ending = EndOfResponse(aborted: bool) | ReadRejected(error: string, aborted: bool)

  /** Decodes one payload; an error is what the JSON parser throws. */
  type Decoder = string -> Result<ProxyEvent>

  const ABORTED_BY_USER := "Request aborted by user"

  /** How far the handling of payloads has come; `thrown` is the error that stopped it. */
  datatype Progress = Progress(partial: Partial, pushed: seq<OutEvent>, thrown: Option<string>)

  function HandleOne(decode: Decoder, parse: ArgumentParser, p: Progress, data: string): Progress {
    if p.thrown.Some? then p
    else
      match decode(data)
      case Err(e) => p.(thrown := Some(e))
      case Ok(ev) =>
        match Process(parse, p.partial, ev)
        case Err(e) => p.(thrown := Some(e))
        case Ok((q, None)) => p.(partial := q)
        case Ok((q, Some(out))) => p.(partial := q, pushed := p.pushed + [out])
  }

  /** Payloads one after the other, up to the first that throws. */
  function HandleAll(decode: Decoder, parse: ArgumentParser, p: Progress, payloads: seq<string>): Progress {
    if payloads == [] then p
    else HandleOne(decode, parse, HandleAll(decode, parse, p, payloads[..|payloads| - 1]), payloads[|payloads| - 1])
  }

  lemma {:induction false} HandleConcat(decode: Decoder, parse: ArgumentParser, p: Progress, a: seq<string>,
                                        b: seq<string>)
    ensures HandleAll(decode, parse, p, a + b) == HandleAll(decode, parse, HandleAll(decode, parse, p, a), b)
  {
    if b == [] {
      assert a + b == a;
    } else {
      HandleConcat(decode, parse, p, a, b[..|b| - 1]);
      assert (a + b)[..|a + b| - 1] == a + b[..|b| - 1];
    }
  }

  lemma {:induction false} ThrownStays(decode: Decoder, parse: ArgumentParser, p: Progress, payloads: seq<string>)
    requires p.thrown.Some?
    ensures HandleAll(decode, parse, p, payloads) == p
  {
    if payloads != [] {
      ThrownStays(decode, parse, p, payloads[..|payloads| - 1]);
    }
  }

  /** The text read before the first chunk that finds the request aborted. */
  function TextRead(chunks: seq<Chunk>): string {
    if chunks == [] || chunks[0].aborted then "" else chunks[0].text + TextRead(chunks[1..])
  }

  predicate NoneAborted(chunks: seq<Chunk>) {
    forall i :: 0 <= i < |chunks| ==> !chunks[i].aborted
  }

  lemma {:induction false} TextReadOf(chunks: seq<Chunk>, n: nat)
    requires n <= |chunks| && NoneAborted(chunks[..n])
    ensures TextRead(chunks) == TextRead(chunks[..n]) + TextRead(chunks[n..])
  {
    if n > 0 {
      assert chunks[..n][0] == chunks[0] && chunks[..n][1..] == chunks[1..][..n - 1];
      assert chunks[1..][n - 1..] == chunks[n..];
      assert chunks[1..][..n - 1] == chunks[..n][1..];
      TextReadOf(chunks[1..], n - 1);
    }
  }

  class ProxyStream {
    const decode: Decoder
    const parse: ArgumentParser

    var buffer: string
    var partial: Partial
    var pushed: seq<OutEvent>

    constructor (decode: Decoder, parse: ArgumentParser, usage: string)
      ensures this.decode == decode && this.parse == parse
      ensures buffer == "" && pushed == [] && partial == Partial(map[], Stop, None, usage)
    {
      this.decode, this.parse := decode, parse;
      buffer, pushed, partial := "", [], Partial(map[], Stop, None, usage);
    }

    ghost function Now(thrown: Option<string>): Progress
      reads this
    {
      Progress(partial, pushed, thrown)
    }

    /** Handles one payload: updates the reply in place and passes its event on. */
    method HandlePayload(data: string) returns (thrown: Option<string>)
      modifies this`partial, this`pushed
      ensures Now(thrown) == HandleOne(decode, parse, old(Now(None)), data)
      ensures decode(data).Ok? && decode(data).value.Done? ==>
        && thrown.None? && pushed == old(pushed) + [OutDone(decode(data).value.reason)]
        && partial == old(partial).(stopReason := decode(data).value.reason, usage := decode(data).value.usage)
      ensures decode(data).Ok? && decode(data).value.Failed? ==>
        && thrown.None? && pushed == old(pushed) + [OutError(decode(data).value.reason)]
        && partial == old(partial).(stopReason := decode(data).value.reason, usage := decode(data).value.usage,
                                    errorMessage := decode(data).value.errorMessage)
    {
      var event := decode(data);
      if event.Err? {
        return Some(event.error);
      }
      var processed := Process(parse, partial, event.value);
      if processed.Err? {
        return Some(processed.error);
      }
      partial := processed.value.0;
      if processed.value.1.Some? {
        pushed := pushed + [processed.value.1.value];
      }
      thrown := None;
    }

    method HandleLines(lines: seq<string>) returns (thrown: Option<string>)
      modifies this`partial, this`pushed
      ensures Now(thrown) == HandleAll(decode, parse, old(Now(None)), Payloads(lines))
    {
      thrown := None;
      ghost var start := Now(None);
      assert Payloads(lines[..0]) == [];
      assert Now(None) == HandleAll(decode, parse, start, []);
      hide HandleAll, HandleOne, Payloads;
      for i := 0 to |lines|
        invariant thrown.None?
        invariant Now(None) == HandleAll(decode, parse, start, Payloads(lines[..i]))
      {
        NextLine(decode, parse, start, lines, i);
        var line := lines[i];
        if DATA <= line {
          var data := Trim(line[|DATA|..]);
          if data != "" {
            thrown := HandlePayload(data);
            if thrown.Some? {
              StoppedAtLine(decode, parse, start, lines, i + 1);
              return;
            }
          }
        }
      }
      assert lines[..|lines|] == lines;
    }

    /** Reads the response to its end, to an abort, or to the first error. */
    method Read(chunks: seq<Chunk>, ending: Ending) returns (failure: Option<string>)
      requires buffer == ""
      modifies this
      ensures var p := HandleAll(decode, parse, old(Now(None)), Payloads(Lines(TextRead(chunks))));
        && pushed == p.pushed && partial == p.partial
        && failure ==
          if p.thrown.Some? then p.thrown
          else if !NoneAborted(chunks) then Some(ABORTED_BY_USER)
          else if ending.ReadRejected? then Some(ending.error)
          else if ending.aborted then Some(ABORTED_BY_USER)
          else None
    {
      ghost var start := Now(None);
      assert TextRead(chunks[..0]) == "" && Lines("") == [] && Rest("") == "" && Payloads([]) == [];
      hide HandleAll, Payloads, TextRead, Lines, Rest, Split;
      for i := 0 to |chunks|
        invariant NoneAborted(chunks[..i])
        invariant buffer == Rest(TextRead(chunks[..i]))
        invariant Now(None) == HandleAll(decode, parse, start, Payloads(Lines(TextRead(chunks[..i]))))
      {
        if chunks[i].aborted {
          AbortedChunk(chunks, i);
          return Some(ABORTED_BY_USER);
        }
        ghost var before := TextRead(chunks[..i]);
        NextChunk(chunks, i);
        buffer := buffer + chunks[i].text;
        LinesAndRest(buffer);
        var pieces := Split(buffer);
        var lines := pieces[..|pieces| - 1];
        buffer := pieces[|pieces| - 1];
        LinesConcat(before, chunks[i].text);
        PayloadsConcat(Lines(before), lines);
        HandleConcat(decode, parse, start, Payloads(Lines(before)), Payloads(lines));
        var thrown := HandleLines(lines);
        if thrown.Some? {
          StoppedInside(decode, parse, start, chunks, i + 1);
          return thrown;
        }
      }
      assert chunks[..|chunks|] == chunks;
      if ending.ReadRejected? {
        return Some(ending.error);
      }
      failure := if ending.aborted then Some(ABORTED_BY_USER) else None;
    }

    /** The whole of reading: a failure is put into the reply and passed on as its last event. */
    method Run(chunks: seq<Chunk>, ending: Ending, abortedWhenCaught: bool)
      requires buffer == "" && partial.content == map[]
      modifies this
      ensures var p := HandleAll(decode, parse, old(Now(None)), Payloads(Lines(TextRead(chunks))));
        var failed := p.thrown.Some? || !NoneAborted(chunks) || ending.ReadRejected? || ending.aborted;
        if !failed then
          && Now(None) == p
          && exists evs ::
               && Decoded(decode, Payloads(Lines(TextRead(chunks))), evs) && KindsMatch(evs)
               && IsRebuilt(parse, old(partial), evs, partial)
        else
          && pushed == p.pushed + [OutError(partial.stopReason)]
          && partial.content == p.partial.content && partial.usage == p.partial.usage
          && partial.errorMessage ==
               (if p.thrown.Some? then p.thrown
                else if NoneAborted(chunks) && ending.ReadRejected? then Some(ending.error)
                else Some(ABORTED_BY_USER))
          && partial.stopReason == if abortedWhenCaught then Aborted else Error
    {
      ghost var start, payloads := Now(None), Payloads(Lines(TextRead(chunks)));
      var failure := Read(chunks, ending);
      if HandleAll(decode, parse, start, payloads).thrown.None? {
        ghost var evs := SuccessIsRebuilt(decode, parse, start, payloads);
      }
      if failure.Some? {
        var reason := if abortedWhenCaught then Aborted else Error;
        partial := partial.(stopReason := reason, errorMessage := failure);
        pushed := pushed + [OutError(reason)];
      }
    }
  }

  lemma NextLine(decode: Decoder, parse: ArgumentParser, start: Progress, lines: seq<string>, i: nat)
    requires i < |lines|
    ensures HandleAll(decode, parse, start, Payloads(lines[..i + 1])) ==
      var p := HandleAll(decode, parse, start, Payloads(lines[..i]));
      if Payload(lines[i]).Some? then HandleOne(decode, parse, p, Payload(lines[i]).value) else p
  {
    var before, line := Payloads(lines[..i]), lines[i];
    assert lines[..i + 1][..i] == lines[..i];
    if Payload(line).Some? {
      var data := Payload(line).value;
      assert Payloads(lines[..i + 1]) == before + [data];
      HandleConcat(decode, parse, start, before, [data]);
      OneIsAll(decode, parse, HandleAll(decode, parse, start, before), data);
    } else {
      assert Payloads(lines[..i + 1]) == before + [] == before;
    }
  }

  lemma StoppedAtLine(decode: Decoder, parse: ArgumentParser, start: Progress, lines: seq<string>, n: nat)
    requires n <= |lines| && HandleAll(decode, parse, start, Payloads(lines[..n])).thrown.Some?
    ensures HandleAll(decode, parse, start, Payloads(lines)) == HandleAll(decode, parse, start, Payloads(lines[..n]))
  {
    assert lines == lines[..n] + lines[n..];
    PayloadsConcat(lines[..n], lines[n..]);
    HandleConcat(decode, parse, start, Payloads(lines[..n]), Payloads(lines[n..]));
    ThrownStays(decode, parse, HandleAll(decode, parse, start, Payloads(lines[..n])), Payloads(lines[n..]));
  }

  lemma OneIsAll(decode: Decoder, parse: ArgumentParser, p: Progress, data: string)
    ensures HandleAll(decode, parse, p, [data]) == HandleOne(decode, parse, p, data)
  {
    assert [data][..0] == [];
  }

  lemma LinesAndRest(text: string)
    ensures var pieces := Split(text); pieces[..|pieces| - 1] == Lines(text) && pieces[|pieces| - 1] == Rest(text)
  {
  }

  lemma AbortedChunk(chunks: seq<Chunk>, i: nat)
    requires i < |chunks| && NoneAborted(chunks[..i]) && chunks[i].aborted
    ensures TextRead(chunks) == TextRead(chunks[..i])
  {
    TextReadOf(chunks, i);
    assert chunks[i..][0] == chunks[i];
  }

  lemma NextChunk(chunks: seq<Chunk>, i: nat)
    requires i < |chunks| && NoneAborted(chunks[..i]) && !chunks[i].aborted
    ensures NoneAborted(chunks[..i + 1])
    ensures TextRead(chunks[..i + 1]) == TextRead(chunks[..i]) + chunks[i].text
  {
    var upto := chunks[..i + 1];
    assert upto[..i] == chunks[..i] && upto[i..] == [chunks[i]];
    TextReadOf(upto, i);
    assert TextRead([chunks[i]][1..]) == "";
    assert TextRead([chunks[i]]) == chunks[i].text + "";
    assert forall j :: 0 <= j < i ==> upto[j] == chunks[..i][j];
  }

  /** Once handling has thrown, the rest of the response makes no difference. */
  lemma StoppedInside(decode: Decoder, parse: ArgumentParser, start: Progress, chunks: seq<Chunk>, n: nat)
    requires n <= |chunks| && NoneAborted(chunks[..n])
    requires HandleAll(decode, parse, start, Payloads(Lines(TextRead(chunks[..n])))).thrown.Some?
    ensures HandleAll(decode, parse, start, Payloads(Lines(TextRead(chunks)))) ==
            HandleAll(decode, parse, start, Payloads(Lines(TextRead(chunks[..n]))))
  {
    var a, b := TextRead(chunks[..n]), TextRead(chunks[n..]);
    TextReadOf(chunks, n);
    LinesConcat(a, b);
    PayloadsConcat(Lines(a), Lines(Rest(a) + b));
    HandleConcat(decode, parse, start, Payloads(Lines(a)), Payloads(Lines(Rest(a) + b)));
    ThrownStays(decode, parse, HandleAll(decode, parse, start, Payloads(Lines(a))), Payloads(Lines(Rest(a) + b)));
  }

  /** How a text is cut into chunks makes no difference, and an unterminated last line is never
      handled. */
  lemma {:induction false} ChunksDoNotMatter(decode: Decoder, parse: ArgumentParser, start: Progress,
                                             chunks: seq<Chunk>, chunks': seq<Chunk>,
                                             lines: seq<string>, rest: string)
    requires TextRead(chunks) == Join(lines) + rest && TextRead(chunks') == Join(lines)
    requires NoLineFeed(rest) && forall i :: 0 <= i < |lines| ==> NoLineFeed(lines[i])
    ensures HandleAll(decode, parse, start, Payloads(Lines(TextRead(chunks)))) ==
            HandleAll(decode, parse, start, Payloads(lines)) ==
            HandleAll(decode, parse, start, Payloads(Lines(TextRead(chunks'))))
  {
    SplitOfJoin(lines, rest);
    SplitOfJoin(lines, "");
    assert Join(lines) + "" == Join(lines);
    assert (lines + [rest])[..|lines|] == lines && (lines + [""])[..|lines|] == lines;
  }

  predicate Decoded(decode: Decoder, payloads: seq<string>, evs: seq<ProxyEvent>) {
    |payloads| == |evs| && forall i :: 0 <= i < |evs| ==> decode(payloads[i]) == Ok(evs[i])
  }

  /** When every payload decodes, handling them is processing their events: nothing is thrown
      exactly if the kinds match, and then the reply is the one rebuilt from the events. */
  lemma {:induction false} HandledIsProcessed(decode: Decoder, parse: ArgumentParser, start: Progress,
                                              payloads: seq<string>, evs: seq<ProxyEvent>)
    requires start.thrown.None? && start.partial.content == map[] && Decoded(decode, payloads, evs)
    ensures HandleAll(decode, parse, start, payloads).thrown.None? <==> KindsMatch(evs)
    ensures KindsMatch(evs) ==>
              ProcessAll(parse, start.partial, evs) == Ok(HandleAll(decode, parse, start, payloads).partial)
  {
    if evs != [] {
      var n := |evs| - 1;
      HandledIsProcessed(decode, parse, start, payloads[..n], evs[..n]);
      assert evs == evs[..n] + [evs[n]];
      KindsMatchSnoc(evs[..n], evs[n]);
      ProcessAllAgrees(parse, start.partial, evs[..n]);
      ProcessAllAgrees(parse, start.partial, evs);
    }
  }

  lemma {:induction false} NothingThrownDecodes(decode: Decoder, parse: ArgumentParser, start: Progress,
                                                payloads: seq<string>) returns (evs: seq<ProxyEvent>)
    requires start.thrown.None? && HandleAll(decode, parse, start, payloads).thrown.None?
    ensures Decoded(decode, payloads, evs)
  {
    if payloads == [] {
      evs := [];
    } else {
      var n := |payloads| - 1;
      evs := NothingThrownDecodes(decode, parse, start, payloads[..n]);
      evs := evs + [decode(payloads[n]).value];
    }
  }

  /** When nothing is thrown, every payload has been decoded, and the reply is rebuilt from the events:
      its blocks, its stop reason, its usage and its error message. */
  lemma SuccessIsRebuilt(decode: Decoder, parse: ArgumentParser, start: Progress, payloads: seq<string>)
    returns (evs: seq<ProxyEvent>)
    requires start.thrown.None? && start.partial.content == map[]
    requires HandleAll(decode, parse, start, payloads).thrown.None?
    ensures Decoded(decode, payloads, evs) && KindsMatch(evs)
    ensures IsRebuilt(parse, start.partial, evs, HandleAll(decode, parse, start, payloads).partial)
  {
    evs := NothingThrownDecodes(decode, parse, start, payloads);
    HandledIsProcessed(decode, parse, start, payloads, evs);
    WholeReply(parse, start.partial, evs);
  }

  /** The event is passed on: all are but unknown ones, and ends of tool calls where the last start was
      of another kind or is missing. */
  predicate Passes(before: seq<ProxyEvent>, ev: ProxyEvent) {
    !ev.Unknown? && (ev.BlockEnd? && ev.kind.ToolBlock? ==> StartedAs(before, ev.index, ToolBlock))
  }

  function Heard(evs: seq<ProxyEvent>): seq<ProxyEvent> {
    if evs == [] then []
    else
      var front, last := evs[..|evs| - 1], evs[|evs| - 1];
      Heard(front) + if Passes(front, last) then [last] else []
  }

  predicate Tells(out: OutEvent, ev: ProxyEvent) {
    match out
    case OutStart => ev.Start?
    case OutBlockStart(kind, i) => ev.BlockStart? && ev.kind == kind && ev.index == i
    case OutBlockDelta(kind, i, delta) => ev == BlockDelta(kind, i, delta)
    case OutBlockEnd(kind, i, c) => ev.BlockEnd? && ev.kind == kind == c.Kind() && ev.index == i
    case OutDone(reason) => ev.Done? && ev.reason == reason
    case OutError(reason) => ev.Failed? && ev.reason == reason
  }

  lemma ProcessTells(parse: ArgumentParser, evs: seq<ProxyEvent>, p: Partial, ev: ProxyEvent)
    requires KindsAgree(evs, p) && Process(parse, p, ev).Ok?
    ensures Passes(evs, ev) <==> Process(parse, p, ev).value.1.Some?
    ensures Passes(evs, ev) ==> Tells(Process(parse, p, ev).value.1.value, ev)
  {
    if ev.BlockEnd? {
      assert AgreesAt(evs, p, ev.index);
    }
  }

  /** When nothing is thrown, each event that is to be passed on is, once and in order. */
  lemma {:induction false} PassedOnInOrder(decode: Decoder, parse: ArgumentParser, start: Progress,
                                           payloads: seq<string>, evs: seq<ProxyEvent>)
    requires start.thrown.None? && start.partial.content == map[] && Decoded(decode, payloads, evs)
    requires KindsMatch(evs)
    ensures var pushed := HandleAll(decode, parse, start, payloads).pushed;
      && |pushed| == |start.pushed| + |Heard(evs)| && pushed[..|start.pushed|] == start.pushed
      && forall i :: 0 <= i < |Heard(evs)| ==> Tells(pushed[|start.pushed| + i], Heard(evs)[i])
  {
    hide KindsMatch, ProcessAll, Tells, Passes, KindsAgree, Process;
    if evs != [] {
      var n := |evs| - 1;
      var front, ev := evs[..n], evs[n];
      assert evs == front + [ev];
      KindsMatchSnoc(front, ev);
      PassedOnInOrder(decode, parse, start, payloads[..n], front);
      HandledIsProcessed(decode, parse, start, payloads[..n], front);
      HandledIsProcessed(decode, parse, start, payloads, evs);
      ProcessAllAgrees(parse, start.partial, front);
      ProcessTells(parse, front, HandleAll(decode, parse, start, payloads[..n]).partial, ev);
    }
  }
}
