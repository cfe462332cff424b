/** Cutting a response text that arrives in chunks into lines and their payloads. */
module ProxyLines {
  import opened Texts
  import opened Wrappers

  /** `split("\n")`: at least one piece; only the last one has no line feed after it. */
  function Split(text: string): (pieces: seq<string>)
    ensures |pieces| >= 1
  {
    if text == "" then [""]
    else
      var rest := Split(text[1..]);
      if text[0] == '\n' then [""] + rest else Prepend(text[0], rest)
  }

  function Prepend(c: char, pieces: seq<string>): (r: seq<string>)
    requires pieces != []
    ensures |r| == |pieces|
  {
    [[c] + pieces[0]] + pieces[1..]
  }

  lemma PrependConcat(c: char, xs: seq<string>, ys: seq<string>)
    requires xs != []
    ensures Prepend(c, xs + ys) == Prepend(c, xs) + ys
  {
    assert (xs + ys)[1..] == xs[1..] + ys;
  }

  lemma PrependFront(c: char, xs: seq<string>)
    requires |xs| > 1
    ensures Prepend(c, xs)[..|xs| - 1] == Prepend(c, xs[..|xs| - 1])
    ensures Prepend(c, xs)[|xs| - 1] == xs[|xs| - 1]
  {
    assert xs[1..][..|xs| - 2] == xs[..|xs| - 1][1..];
  }

  function Lines(text: string): seq<string> {
    var pieces := Split(text);
    pieces[..|pieces| - 1]
  }

  function Rest(text: string): string {
    var pieces := Split(text);
    pieces[|pieces| - 1]
  }

  function Join(lines: seq<string>): string {
    if lines == [] then "" else lines[0] + "\n" + Join(lines[1..])
  }

  predicate NoLineFeed(s: string) {
    '\n' !in s
  }

  /** The lines and the rest make up the text again, and none of them holds a line feed. */
  lemma {:induction false} SplitIsExact(text: string)
    ensures Join(Lines(text)) + Rest(text) == text
    ensures forall i :: 0 <= i < |Split(text)| ==> NoLineFeed(Split(text)[i])
  {
    if text != "" {
      SplitIsExact(text[1..]);
      var rest, pieces := Split(text[1..]), Split(text);
      if text[0] == '\n' {
        assert pieces[..|pieces| - 1] == [""] + rest[..|rest| - 1];
        assert ([""] + rest[..|rest| - 1])[1..] == rest[..|rest| - 1];
      } else {
        if |rest| == 1 {
          assert pieces == [[text[0]] + rest[0]];
        } else {
          PrependFront(text[0], rest);
          assert Prepend(text[0], Lines(text[1..]))[1..] == Lines(text[1..])[1..];
        }
        forall i | 0 <= i < |pieces| ensures NoLineFeed(pieces[i]) {
          if i > 0 { assert pieces[i] == rest[i]; }
        }
      }
    }
  }

  lemma {:induction false} SplitPlain(text: string)
    requires NoLineFeed(text)
    ensures Split(text) == [text]
  {
    if text != "" {
      SplitPlain(text[1..]);
      assert text[0] in text && [text[0]] + text[1..] == text;
    }
  }

  /** A list of lines and a rest without line feeds is the only way to read a text. */
  lemma {:induction false} SplitOfJoin(lines: seq<string>, rest: string)
    requires forall i :: 0 <= i < |lines| ==> NoLineFeed(lines[i])
    requires NoLineFeed(rest)
    ensures Split(Join(lines) + rest) == lines + [rest]
    decreases |lines|, if lines == [] then |rest| else |lines[0]|
  {
    if lines == [] {
      SplitPlain(rest);
      assert Join(lines) + rest == rest;
    } else {
      var shorter := if lines[0] == "" then lines[1..] else [lines[0][1..]] + lines[1..];
      JoinShorter(lines, rest);
      forall i | 0 <= i < |shorter| ensures NoLineFeed(shorter[i]) {
        assert NoLineFeed(lines[0]);
      }
      SplitOfJoin(shorter, rest);
      if lines[0] == "" {
        assert [""] + (lines[1..] + [rest]) == lines + [rest];
      } else {
        assert lines[0] == [lines[0][0]] + lines[0][1..] && lines[0][0] in lines[0];
        assert Prepend(lines[0][0], shorter) == lines;
        PrependConcat(lines[0][0], shorter, [rest]);
      }
    }
  }

  lemma JoinShorter(lines: seq<string>, rest: string)
    requires lines != []
    ensures var text := Join(lines) + rest;
      && text != "" && text[0] == (if lines[0] == "" then '\n' else lines[0][0])
      && text[1..] == Join(if lines[0] == "" then lines[1..] else [lines[0][1..]] + lines[1..]) + rest
  {
    var line, others := lines[0], Join(lines[1..]);
    Behead(line + "\n" + others, rest);
    Behead(line + "\n", others);
    if line == "" {
      assert line + "\n" == "\n";
    } else {
      Behead(line, "\n");
      assert ([line[1..]] + lines[1..])[1..] == lines[1..];
    }
  }

  lemma Behead(a: string, b: string)
    requires a != ""
    ensures (a + b)[0] == a[0] && (a + b)[1..] == a[1..] + b
  {
  }

  /** Splitting what is left over together with the next chunk goes on where the lines so far
      ended. */
  lemma {:induction false} SplitConcat(a: string, b: string)
    ensures Split(a + b) == Lines(a) + Split(Rest(a) + b)
  {
    if a == "" {
      assert a + b == b && Rest(a) + b == b;
    } else {
      SplitConcat(a[1..], b);
      assert (a + b)[1..] == a[1..] + b && (a + b)[0] == a[0];
      SplitStep(a, a + b, Split(a[1..]), Split(Rest(a[1..]) + b));
      if a[0] != '\n' && |Split(a[1..])| == 1 {
        SplitIsExact(a);
        assert Lines(a) == [] && Rest(a) == a;
      }
    }
  }

  lemma SplitStep(a: string, text: string, p: seq<string>, next: seq<string>)
    requires a != "" && text != "" && text[0] == a[0] && p == Split(a[1..])
    requires next != [] && Split(text[1..]) == p[..|p| - 1] + next
    ensures a[0] == '\n' || |p| > 1 ==>
              Split(text) == Lines(a) + next && Rest(a) == p[|p| - 1]
  {
    if a[0] == '\n' {
      EmptyLine(p, next);
    } else if |p| > 1 {
      PrependFront(a[0], p);
      PrependConcat(a[0], p[..|p| - 1], next);
    }
  }

  lemma EmptyLine(p: seq<string>, next: seq<string>)
    requires p != [] && next != []
    ensures var q := [""] + p;
      [""] + (p[..|p| - 1] + next) == q[..|q| - 1] + next && q[|q| - 1] == p[|p| - 1]
  {
    var q := [""] + p;
    assert q[..|q| - 1] == [""] + p[..|p| - 1];
  }

  lemma LinesConcat(a: string, b: string)
    ensures Lines(a + b) == Lines(a) + Lines(Rest(a) + b)
    ensures Rest(a + b) == Rest(Rest(a) + b)
  {
    SplitConcat(a, b);
  }

  // ---------------------------------------------------------------- Payloads

  const DATA := "data: "

  /** The payload of a data line; other lines and blank payloads are ignored. */
  function Payload(line: string): Option<string> {
    if DATA <= line && Trim(line[|DATA|..]) != "" then Some(Trim(line[|DATA|..])) else None
  }

  function Payloads(lines: seq<string>): seq<string> {
    if lines == [] then []
    else
      Payloads(lines[..|lines| - 1]) +
      match Payload(lines[|lines| - 1])
      case None => []
      case Some(data) => [data]
  }

  lemma {:induction false} PayloadsConcat(a: seq<string>, b: seq<string>)
    ensures Payloads(a + b) == Payloads(a) + Payloads(b)
  {
    if b == [] {
      assert a + b == a;
    } else {
      PayloadsConcat(a, b[..|b| - 1]);
      assert (a + b)[..|a + b| - 1] == a + b[..|b| - 1];
    }
  }
}
