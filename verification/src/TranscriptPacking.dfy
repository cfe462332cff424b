/** Packing session transcripts, in order, into as few files of bounded size as possible. */
module TranscriptPacking {

  const MAX_CHARS_PER_FILE := 100_000

  datatype File = File(index: nat, content: string)

  /** The text of a file that holds the transcripts `g`, with a blank line between them. */
  function Text(g: seq<string>): string {
    if g == [] then ""
    else if |g| == 1 then g[0]
    else Text(g[..|g| - 1]) + "\n\n" + g[|g| - 1]
  }

  function Size(g: seq<string>): nat {
    |Text(g)|
  }

  predicate Fits(g: seq<string>) {
    Size(g) <= MAX_CHARS_PER_FILE
  }

  function Flatten(gs: seq<seq<string>>): seq<string> {
    if gs == [] then [] else Flatten(gs[..|gs| - 1]) + gs[|gs| - 1]
  }

  /** A way to distribute `ts` over files: in order, no file empty, and no file over the limit
      unless it holds a single transcript. */
  predicate Packing(gs: seq<seq<string>>, ts: seq<string>) {
    && Flatten(gs) == ts
    && forall i :: 0 <= i < |gs| ==> gs[i] != [] && (Fits(gs[i]) || |gs[i]| == 1)
  }

  /** First fit in order: a transcript goes into the last file if it fits there. */
  function Greedy(ts: seq<string>): (gs: seq<seq<string>>)
    ensures ts != [] ==> gs != []
  {
    if ts == [] then []
    else Placed(Greedy(ts[..|ts| - 1]), ts[|ts| - 1])
  }

  function Last(gs: seq<seq<string>>): seq<string>
    requires gs != []
  {
    gs[|gs| - 1]
  }

  lemma FlattenSnoc(gs: seq<seq<string>>, g: seq<string>)
    ensures Flatten(gs + [g]) == Flatten(gs) + g
  {
    assert (gs + [g])[..|gs|] == gs;
  }

  /** The files after one more transcript. */
  function Placed(gs: seq<seq<string>>, t: string): seq<seq<string>> {
    if gs != [] && Fits(Last(gs) + [t]) then gs[..|gs| - 1] + [Last(gs) + [t]] else gs + [[t]]
  }

  lemma PlacedIsPacking(gs: seq<seq<string>>, ts: seq<string>, t: string)
    requires Packing(gs, ts)
    ensures Packing(Placed(gs, t), ts + [t])
  {
    if gs != [] && Fits(Last(gs) + [t]) {
      assert gs == gs[..|gs| - 1] + [Last(gs)];
      FlattenSnoc(gs[..|gs| - 1], Last(gs) + [t]);
      assert Flatten(gs[..|gs| - 1]) + (Last(gs) + [t]) == Flatten(gs) + [t];
    } else {
      FlattenSnoc(gs, [t]);
    }
  }

  lemma {:induction false} GreedyIsPacking(ts: seq<string>)
    ensures Packing(Greedy(ts), ts)
  {
    if ts != [] {
      var front, t := ts[..|ts| - 1], ts[|ts| - 1];
      GreedyIsPacking(front);
      PlacedIsPacking(Greedy(front), front, t);
      assert ts == front + [t];
    }
  }

  lemma TextSnoc(g: seq<string>, t: string)
    requires g != []
    ensures Text(g + [t]) == Text(g) + "\n\n" + t
  {
    assert (g + [t])[..|g|] == g;
  }

  /** Taking transcripts away from the front of a file does not make it larger. */
  lemma {:induction false} SuffixIsSmaller(g: seq<string>, k: nat)
    requires k < |g|
    ensures Size(g[k..]) <= Size(g)
    decreases |g|
  {
    if k > 0 {
      if k == |g| - 1 {
        assert g[k..] == [g[k]];
      } else {
        var n := |g| - 1;
        SuffixIsSmaller(g[..n], k);
        assert g[k..] == g[..n][k..] + [g[n]];
        TextSnoc(g[..n][k..], g[n]);
      }
    } else {
      assert g[k..] == g;
    }
  }

  lemma PrefixIsSmaller(g: seq<string>)
    requires |g| > 1
    ensures Size(g[..|g| - 1]) <= Size(g)
  {
  }

  lemma LastIsSuffix(gs: seq<seq<string>>, ts: seq<string>)
    requires gs != [] && Flatten(gs) == ts
    ensures |Last(gs)| <= |ts| && Last(gs) == ts[|ts| - |Last(gs)|..]
  {
  }

  lemma AlsoFits(front: seq<string>, t: string, theirs: seq<string>)
    requires Greedy(front) != [] && |Last(Greedy(front))| <= |theirs| <= |front|
    requires theirs == front[|front| - |theirs|..] && Fits(theirs + [t])
    ensures Fits(Last(Greedy(front)) + [t])
  {
    GreedyIsPacking(front);
    FitsWhereOtherFits(front, t, Greedy(front), theirs);
  }

  lemma Shortened(ts: seq<string>, front: seq<string>, t: string, last: seq<string>)
    requires ts == front + [t] && 1 < |last| <= |ts| && last == ts[|ts| - |last|..]
    ensures last[..|last| - 1] + [t] == last && last[..|last| - 1] == front[|front| - (|last| - 1)..]
  {
    assert last[|last| - 1] == ts[|ts| - 1] == t;
  }

  /** Where another packing puts one more transcript into its last file, first fit can follow. */
  lemma FollowsFuller(ts: seq<string>, front: seq<string>, t: string, last: seq<string>, files: nat)
    requires ts == front + [t] && 1 < |last| <= |ts| && last == ts[|ts| - |last|..] && Fits(last)
    requires |Greedy(front)| <= files
    requires (front != [] && |Greedy(front)| == files ==> |Last(Greedy(front))| <= |last| - 1)
    ensures |Greedy(ts)| <= files && (|Greedy(ts)| == files ==> |Last(Greedy(ts))| <= |last|)
  {
    hide Text, Fits, Size;
    assert ts[..|ts| - 1] == front;
    if |Greedy(front)| == files {
      Shortened(ts, front, t, last);
      AlsoFits(front, t, last[..|last| - 1]);
    }
  }

  /** First fit stays ahead of every other packing: it never has more files, and where it has as
      many, its last file is no fuller. */
  lemma {:induction false} StaysAhead(ts: seq<string>, other: seq<seq<string>>)
    requires Packing(other, ts)
    ensures |Greedy(ts)| <= |other|
    ensures ts != [] && |Greedy(ts)| == |other| ==> |Last(Greedy(ts))| <= |Last(other)|
    decreases |ts|
  {
    hide Text, Fits, Size;
    if ts != [] {
      var front, t := ts[..|ts| - 1], ts[|ts| - 1];
      var rest, last := other[..|other| - 1], Last(other);
      LastIsSuffix(other, ts);
      if |last| == 1 {
        assert last == [t] && Flatten(rest) == front;
        StaysAhead(front, rest);
      } else {
        var shorter := rest + [last[..|last| - 1]];
        DropLast(other, ts);
        StaysAhead(front, shorter);
        LastIsSuffix(shorter, front);
        assert last == Last(shorter) + [t];
        FollowsFuller(ts, front, t, last, |other|);
      }
    }
  }

  lemma DropLast(gs: seq<seq<string>>, ts: seq<string>)
    requires Packing(gs, ts) && gs != [] && |Last(gs)| > 1
    ensures Packing(gs[..|gs| - 1] + [Last(gs)[..|Last(gs)| - 1]], ts[..|ts| - 1])
    ensures ts != [] && Last(gs)[|Last(gs)| - 1] == ts[|ts| - 1] && Fits(Last(gs))
  {
    var g := Last(gs);
    PrefixIsSmaller(g);
    FlattenSnoc(gs[..|gs| - 1], g[..|g| - 1]);
    assert ts == Flatten(gs[..|gs| - 1]) + g;
    assert ts[..|ts| - 1] == Flatten(gs[..|gs| - 1]) + g[..|g| - 1];
  }

  lemma FitsWhereOtherFits(front: seq<string>, t: string, gs: seq<seq<string>>, theirs: seq<string>)
    requires gs != [] && Flatten(gs) == front && Last(gs) != [] && |Last(gs)| <= |theirs| <= |front|
    requires theirs == front[|front| - |theirs|..] && Fits(theirs + [t])
    ensures Fits(Last(gs) + [t])
  {
    LastIsSuffix(gs, front);
    var mine, k := Last(gs), |theirs| - |Last(gs)|;
    assert mine == theirs[k..];
    assert (theirs + [t])[k..] == mine + [t];
    SuffixIsSmaller(theirs + [t], k);
  }

  /** No way to distribute the transcripts in order uses fewer files. */
  lemma FirstFitIsOptimal(ts: seq<string>, other: seq<seq<string>>)
    requires Packing(other, ts)
    ensures Packing(Greedy(ts), ts) && |Greedy(ts)| <= |other|
  {
    GreedyIsPacking(ts);
    StaysAhead(ts, other);
  }

  /** The files while the last of them is still being filled. */
  function Joined(closed: seq<seq<string>>, current: seq<string>): seq<seq<string>> {
    if current == [] then closed else closed + [current]
  }

  /** The files of a packing, numbered from zero. */
  function FilesOf(gs: seq<seq<string>>): seq<File> {
    seq(|gs|, i requires 0 <= i < |gs| => File(i, Text(gs[i])))
  }

  lemma NextFile(gs: seq<seq<string>>, g: seq<string>)
    ensures FilesOf(gs + [g]) == FilesOf(gs) + [File(|gs|, Text(g))]
  {
  }

  lemma GreedySnoc(ts: seq<string>, i: nat)
    requires i < |ts|
    ensures Greedy(ts[..i + 1]) == Placed(Greedy(ts[..i]), ts[i])
  {
    assert ts[..i + 1][..i] == ts[..i];
  }

  lemma TextGrows(g: seq<string>, t: string)
    ensures Text(g + [t]) == if g == [] then t else Text(g) + "\n\n" + t
  {
    if g == [] {
      assert g + [t] == [t];
    } else {
      TextSnoc(g, t);
    }
  }

  /** The files `closed` are written and `current` is being filled. When `current` is empty, the
      last written file has no room left for another transcript. */
  predicate Filling(closed: seq<seq<string>>, current: seq<string>) {
    if current != [] then Fits(current) && Text(current) != ""
    else closed != [] ==> Last(closed) != [] && !Fits(Last(closed))
  }

  /** The loop writes `current` before `t` exactly where first fit starts a new file. */
  lemma Closes(closed: seq<seq<string>>, current: seq<string>, t: string)
    requires Filling(closed, current)
    ensures current != [] && Size(current) + |t| + 2 > MAX_CHARS_PER_FILE
            ==> Placed(Joined(closed, current), t) == closed + [current] + [[t]]
    ensures current != [] && Size(current) + |t| + 2 <= MAX_CHARS_PER_FILE
            ==> Placed(Joined(closed, current), t) == closed + [current + [t]]
    ensures current == [] ==> Placed(Joined(closed, current), t) == closed + [[t]]
  {
    if current != [] {
      TextSnoc(current, t);
      assert (closed + [current])[..|closed|] == closed;
    } else if closed != [] {
      TextSnoc(Last(closed), t);
    }
  }

  /** The packing loop: every transcript is non-empty, as it starts with a header line. */
  method Pack(transcripts: seq<string>) returns (outputFiles: seq<File>)
    requires forall t :: t in transcripts ==> t != ""
    ensures outputFiles == FilesOf(Greedy(transcripts))
  {
    hide Text, Greedy, Placed, FilesOf;
    outputFiles := [];
    var currentContent := "";
    var fileIndex := 0;
    ghost var closed: seq<seq<string>>, current: seq<string> := [], [];
    Empty();
    for i := 0 to |transcripts|
      invariant outputFiles == FilesOf(closed) && fileIndex == |closed|
      invariant currentContent == Text(current) && Filling(closed, current)
      invariant Greedy(transcripts[..i]) == Joined(closed, current)
    {
      var transcript := transcripts[i];
      assert transcript in transcripts;
      GreedySnoc(transcripts, i);
      Closes(closed, current, transcript);
      Empty();
      if |currentContent| > 0 && |currentContent| + |transcript| + 2 > MAX_CHARS_PER_FILE {
        NextFile(closed, current);
        outputFiles := outputFiles + [File(fileIndex, currentContent)];
        closed, current := closed + [current], [];
        currentContent := "";
        fileIndex := fileIndex + 1;
      }
      TextGrows([], transcript);
      assert [] + [transcript] == [transcript];
      if |transcript| > MAX_CHARS_PER_FILE {
        if |currentContent| > 0 {
          // The flush of pending content at this place never happens.
          assert false;
        }
        NextFile(closed, [transcript]);
        outputFiles := outputFiles + [File(fileIndex, transcript)];
        closed := closed + [[transcript]];
        fileIndex := fileIndex + 1;
        continue;
      }
      TextGrows(current, transcript);
      currentContent := currentContent + (if currentContent != "" then "\n\n" else "") + transcript;
      current := current + [transcript];
    }
    assert transcripts[..|transcripts|] == transcripts;
    if |currentContent| > 0 {
      NextFile(closed, current);
      outputFiles := outputFiles + [File(fileIndex, currentContent)];
    }
  }

  lemma Empty()
    ensures Text([]) == "" && Greedy([]) == [] && FilesOf([]) == []
  {
  }
}
