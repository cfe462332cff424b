/** Cutting a Markdown document into chunks at its headings, and long sections at their blank lines. */
module MarkdownChunks {
  import opened Texts

  const MAX_CHUNK_CHARS := 2000

  datatype Chunk<M> = Chunk(content: string, metadata: M)

  // ---------------------------------------------------------------- Sections

  /** The pattern `#{1,3}\s` matches at `p`. */
  predicate HeadingAt(s: string, p: nat) {
    && p + 1 < |s| && s[p] == '#'
    && (IsSpace(s[p + 1])
        || (p + 2 < |s| && s[p + 1] == '#' && (IsSpace(s[p + 2])
            || (p + 3 < |s| && s[p + 2] == '#' && IsSpace(s[p + 3])))))
  }

  /** The anchor `^` in multiline mode matches at `p`. */
  predicate AtLineStart(s: string, p: nat)
    requires p <= |s|
  {
    p == 0 || s[p - 1] in {'\n', '\r', '\U{2028}', '\U{2029}'}
  }

  predicate Boundary(s: string, p: nat) {
    p <= |s| && AtLineStart(s, p) && HeadingAt(s, p)
  }

  /** No heading line starts inside the text, although one may start at its beginning. */
  predicate Unbroken(s: string) {
    forall p :: 0 < p < |s| ==> !Boundary(s, p)
  }

  /** The first boundary from `p` on, or the end. */
  function NextBoundary(s: string, p: nat): (q: nat)
    requires 0 < p <= |s|
    ensures p <= q <= |s| && (q < |s| ==> Boundary(s, q))
    ensures forall i :: p <= i < q ==> !Boundary(s, i)
    decreases |s| - p
  {
    if p == |s| || Boundary(s, p) then p else NextBoundary(s, p + 1)
  }

  /** `split` at the empty matches in front of headings; it never splits at the very beginning. */
  function Sections(s: string): (sections: seq<string>)
    decreases |s|
  {
    if s == "" then [""]
    else
      var q := NextBoundary(s, 1);
      if q == |s| then [s] else [s[..q]] + Sections(s[q..])
  }

  /** The sections are the document again, none holds a heading line inside, and each but the first
      starts with one. */
  lemma {:induction false} SectionsAreExact(s: string)
    ensures Concat(Sections(s)) == s
    ensures forall i :: 0 <= i < |Sections(s)| ==> Unbroken(Sections(s)[i])
    ensures forall i :: 0 < i < |Sections(s)| ==> HeadingAt(Sections(s)[i], 0)
    decreases |s|
  {
    if s != "" {
      var q := NextBoundary(s, 1);
      PartUnbroken(s, q);
      if q == |s| {
        assert Concat([s]) == s + Concat([]);
        assert s[..q] == s;
      } else {
        SectionsAreExact(s[q..]);
        HeadingStartsRest(s, q);
        assert s == s[..q] + s[q..];
      }
    }
  }

  lemma PartUnbroken(s: string, q: nat)
    requires q <= |s| && forall i :: 1 <= i < q ==> !Boundary(s, i)
    ensures Unbroken(s[..q])
  {
    forall p | 0 < p < q ensures !Boundary(s[..q], p) {
      if Boundary(s[..q], p) {
        assert Boundary(s, p);
      }
    }
  }

  lemma HeadingStartsRest(s: string, q: nat)
    requires q < |s| && HeadingAt(s, q)
    ensures Sections(s[q..]) != [] && HeadingAt(Sections(s[q..])[0], 0)
  {
    var rest := s[q..];
    assert HeadingAt(rest, 0);
    var n := NextBoundary(rest, 1);
    if n < |rest| {
      // The white space of the heading comes before the next boundary.
      assert HeadingAt(rest[..n], 0);
    }
  }

  // ---------------------------------------------------------------- Paragraphs

  predicate BlankLineAt(s: string, p: nat) {
    p + 1 < |s| && s[p] == '\n' && s[p + 1] == '\n'
  }

  function NextBlankLine(s: string, p: nat): (q: nat)
    requires p <= |s|
    ensures p <= q <= |s| && (q < |s| ==> BlankLineAt(s, q))
    ensures forall i :: p <= i < q ==> !BlankLineAt(s, i)
    decreases |s| - p
  {
    if p == |s| || BlankLineAt(s, p) then p else NextBlankLine(s, p + 1)
  }

  /** The end of the line feeds from `p` on. */
  function SkipLineFeeds(s: string, p: nat): (q: nat)
    requires p <= |s|
    ensures p <= q <= |s| && forall i :: p <= i < q ==> s[i] == '\n'
    ensures q < |s| ==> s[q] != '\n'
    decreases |s| - p
  {
    if p == |s| || s[p] != '\n' then p else SkipLineFeeds(s, p + 1)
  }

  /** `split` at the matches of `\n\n+`. */
  function Paragraphs(s: string): (paragraphs: seq<string>)
    ensures paragraphs != []
    decreases |s|
  {
    var p := NextBlankLine(s, 0);
    if p == |s| then [s] else [s[..p]] + Paragraphs(s[SkipLineFeeds(s, p + 2)..])
  }

  predicate NoBlankLine(s: string) {
    forall i :: 0 <= i < |s| ==> !BlankLineAt(s, i)
  }

  predicate StartsBlank(s: string) {
    s != "" && s[0] == '\n'
  }

  lemma PrefixStartsAlike(a: string, b: string)
    requires a <= b && !StartsBlank(b)
    ensures !StartsBlank(a)
  {
  }

  lemma BeforeBlankLine(s: string, p: nat)
    requires p <= |s| && forall i :: 0 <= i < p ==> !BlankLineAt(s, i)
    ensures NoBlankLine(s[..p])
  {
    forall i | 0 <= i < p ensures !BlankLineAt(s[..p], i) {
      assert !BlankLineAt(s, i);
    }
  }

  /** No paragraph holds a blank line, and each but the first starts with something else than a line
      feed. */
  lemma {:induction false} ParagraphsHoldNoBlankLine(s: string)
    ensures forall i :: 0 <= i < |Paragraphs(s)| ==> NoBlankLine(Paragraphs(s)[i])
    ensures forall i :: 0 < i < |Paragraphs(s)| ==> !StartsBlank(Paragraphs(s)[i])
    ensures Paragraphs(s)[0] <= s
    decreases |s|
  {
    hide NoBlankLine;
    var p := NextBlankLine(s, 0);
    BeforeBlankLine(s, p);
    if p == |s| {
      assert s[..p] == s;
    } else {
      var q := SkipLineFeeds(s, p + 2);
      ParagraphsHoldNoBlankLine(s[q..]);
      PrefixStartsAlike(Paragraphs(s[q..])[0], s[q..]);
    }
  }

  // ---------------------------------------------------------------- Chunks

  /** The chunk that `current` ends up as, if there is more to it than white space. */
  function Flush(current: string): seq<string> {
    if Trim(current) != "" then [Trim(current)] else []
  }

  /** The chunks made when `current` has been gathered and `paragraphs` are still to come. */
  function Gather(current: string, paragraphs: seq<string>): seq<string>
    decreases |paragraphs|
  {
    if paragraphs == [] then Flush(current)
    else
      var para, rest := paragraphs[0], paragraphs[1..];
      if |current| + |para| + 2 > MAX_CHUNK_CHARS then Flush(current) + Gather(para, rest)
      else Gather(if current != "" then current + "\n\n" + para else para, rest)
  }

  function OfSection(section: string): seq<string> {
    var trimmed := Trim(section);
    if trimmed == "" then []
    else if |trimmed| <= MAX_CHUNK_CHARS then [trimmed]
    else Gather("", Paragraphs(trimmed))
  }

  function OfSections(sections: seq<string>): seq<string> {
    if sections == [] then []
    else OfSections(sections[..|sections| - 1]) + OfSection(sections[|sections| - 1])
  }

  function Contents<M>(chunks: seq<Chunk<M>>): seq<string> {
    seq(|chunks|, i requires 0 <= i < |chunks| => chunks[i].content)
  }

  lemma GatherNext(current: string, paragraphs: seq<string>, p: nat)
    requires p < |paragraphs|
    ensures Gather(current, paragraphs[p..]) ==
      if |current| + |paragraphs[p]| + 2 > MAX_CHUNK_CHARS
      then Flush(current) + Gather(paragraphs[p], paragraphs[p + 1..])
      else Gather(if current != "" then current + "\n\n" + paragraphs[p] else paragraphs[p], paragraphs[p + 1..])
  {
    assert paragraphs[p..][1..] == paragraphs[p + 1..];
  }

  lemma OneMoreSection(sections: seq<string>, s: nat)
    requires s < |sections|
    ensures OfSections(sections[..s + 1]) == OfSections(sections[..s]) + OfSection(sections[s])
  {
    assert sections[..s + 1][..s] == sections[..s];
  }

  lemma OneMoreChunk<M>(chunks: seq<Chunk<M>>, chunk: Chunk<M>)
    ensures Contents(chunks + [chunk]) == Contents(chunks) + [chunk.content]
  {
  }

  method ChunkContent<M>(content: string, baseMetadata: M) returns (chunks: seq<Chunk<M>>)
    ensures Contents(chunks) == OfSections(Sections(content))
    ensures forall chunk <- chunks :: chunk.metadata == baseMetadata
  {
    hide Contents, OfSections, Gather, Sections, Paragraphs, Trim;
    chunks := [];
    var sections := Sections(content);
    NoSections(chunks);
    for s := 0 to |sections|
      invariant Contents(chunks) == OfSections(sections[..s])
      invariant forall chunk <- chunks :: chunk.metadata == baseMetadata
    {
      OneMoreSection(sections, s);
      var trimmed := Trim(sections[s]);
      if |trimmed| == 0 {
        continue;
      }
      if |trimmed| <= MAX_CHUNK_CHARS {
        OneMoreChunk(chunks, Chunk(trimmed, baseMetadata));
        chunks := chunks + [Chunk(trimmed, baseMetadata)];
      } else {
        chunks := ChunkParagraphs(trimmed, chunks, baseMetadata);
      }
    }
    assert sections[..|sections|] == sections;
  }

  lemma NoSections<M>(chunks: seq<Chunk<M>>)
    requires chunks == []
    ensures Contents(chunks) == OfSections([])
  {
  }

  /** The part of the loop that splits a long section. */
  method ChunkParagraphs<M>(trimmed: string, before: seq<Chunk<M>>, baseMetadata: M) returns (chunks: seq<Chunk<M>>)
    requires forall chunk <- before :: chunk.metadata == baseMetadata
    ensures Contents(chunks) == Contents(before) + Gather("", Paragraphs(trimmed))
    ensures forall chunk <- chunks :: chunk.metadata == baseMetadata
  {
    hide Contents, Gather, Paragraphs, Trim;
    chunks := before;
    var paragraphs := Paragraphs(trimmed);
    var current := "";
    assert paragraphs[0..] == paragraphs;
    for p := 0 to |paragraphs|
      invariant Contents(chunks) + Gather(current, paragraphs[p..]) == Contents(before) + Gather("", paragraphs)
      invariant forall chunk <- chunks :: chunk.metadata == baseMetadata
    {
      var para := paragraphs[p];
      GatherNext(current, paragraphs, p);
      if |current| + |para| + 2 > MAX_CHUNK_CHARS {
        Regroup(Contents(chunks), Flush(current), Gather(para, paragraphs[p + 1..]));
        if |Trim(current)| > 0 {
          OneMoreChunk(chunks, Chunk(Trim(current), baseMetadata));
          chunks := chunks + [Chunk(Trim(current), baseMetadata)];
        }
        current := para;
      } else {
        current := if |current| > 0 then current + "\n\n" + para else para;
      }
    }
    assert paragraphs[|paragraphs|..] == [];
    GatherNone(current);
    Regroup(Contents(chunks), [], []);
    if |Trim(current)| > 0 {
      OneMoreChunk(chunks, Chunk(Trim(current), baseMetadata));
      chunks := chunks + [Chunk(Trim(current), baseMetadata)];
    }
  }

  lemma GatherNone(current: string)
    ensures Gather(current, []) == Flush(current)
  {
  }

  lemma Regroup(a: seq<string>, b: seq<string>, c: seq<string>)
    ensures a + (b + c) == a + b + c && a + [] == a
  {
  }

  // ---------------------------------------------------------------- What is joined

  /** Paragraphs put together with blank lines between them. */
  function Joined(group: seq<string>): string {
    if group == [] then ""
    else
      var before, last := Joined(group[..|group| - 1]), group[|group| - 1];
      if before != "" then before + "\n\n" + last else last
  }

  predicate FitsOn(current: string, para: string) {
    |current| + |para| + 2 <= MAX_CHUNK_CHARS
  }

  /** Each paragraph of the group fits on those before it. */
  predicate Packed(group: seq<string>) {
    forall k :: 0 < k < |group| ==> FitsOn(Joined(group[..k]), group[k])
  }

  function Flatten(groups: seq<seq<string>>): seq<string> {
    if groups == [] then [] else groups[0] + Flatten(groups[1..])
  }

  function ChunksOf(groups: seq<seq<string>>): seq<string> {
    if groups == [] then [] else Flush(Joined(groups[0])) + ChunksOf(groups[1..])
  }

  /** No group could have taken the first paragraph of the next. */
  predicate CutsOnlyWhereFull(groups: seq<seq<string>>) {
    forall i :: 0 < i < |groups| ==> groups[i] != [] && !FitsOn(Joined(groups[i - 1]), groups[i][0])
  }

  lemma PackedSnoc(group: seq<string>, para: string)
    requires Packed(group) && FitsOn(Joined(group), para)
    ensures Packed(group + [para])
    ensures Joined(group + [para]) == if Joined(group) != "" then Joined(group) + "\n\n" + para else para
  {
    assert (group + [para])[..|group|] == group;
    assert forall k :: 0 < k < |group| ==> (group + [para])[..k] == group[..k];
  }

  lemma OneGroup(para: string)
    ensures Packed([para]) && Joined([para]) == para
  {
    assert [para][..0] == [];
  }

  lemma LastGroup(group: seq<string>)
    ensures Flatten([group]) == group + [] && ChunksOf([group]) == Flush(Joined(group))
  {
    assert [group][1..] == [];
    assert Flush(Joined(group)) + [] == Flush(Joined(group));
  }

  lemma CutBefore(group: seq<string>, groups: seq<seq<string>>)
    requires groups != [] && groups[0] != [] && !FitsOn(Joined(group), groups[0][0]) && CutsOnlyWhereFull(groups)
    ensures CutsOnlyWhereFull([group] + groups)
    ensures Flatten([group] + groups) == group + Flatten(groups)
    ensures ChunksOf([group] + groups) == Flush(Joined(group)) + ChunksOf(groups)
  {
  }

  lemma {:induction false} GroupsFrom(current: seq<string>, rest: seq<string>) returns (groups: seq<seq<string>>)
    requires Packed(current)
    ensures groups != [] && current <= groups[0] && Flatten(groups) == current + rest
    ensures (forall group <- groups :: Packed(group)) && CutsOnlyWhereFull(groups)
    ensures Gather(Joined(current), rest) == ChunksOf(groups)
    decreases |rest|
  {
    hide Joined, Packed, FitsOn, Flush;
    if rest == [] {
      groups := [current];
      LastGroup(current);
    } else if FitsOn(Joined(current), rest[0]) {
      PackedSnoc(current, rest[0]);
      groups := GroupsFrom(current + [rest[0]], rest[1..]);
      assert current + [rest[0]] + rest[1..] == current + rest;
      FitsIsLength(Joined(current), rest[0]);
    } else {
      OneGroup(rest[0]);
      var others := GroupsFrom([rest[0]], rest[1..]);
      assert others[0][0] == rest[0] && [rest[0]] + rest[1..] == rest;
      CutBefore(current, others);
      groups := [current] + others;
      FitsIsLength(Joined(current), rest[0]);
    }
  }

  lemma FitsIsLength(current: string, para: string)
    ensures FitsOn(current, para) <==> |current| + |para| + 2 <= MAX_CHUNK_CHARS
  {
  }

  /** Paragraphs are joined as long as they fit: the chunks of a long section are its paragraphs in
      order, cut into groups only where the next paragraph does not fit on the group before it. */
  lemma GatherJoinsWhatFits(paragraphs: seq<string>) returns (groups: seq<seq<string>>)
    ensures Flatten(groups) == paragraphs && Gather("", paragraphs) == ChunksOf(groups)
    ensures (forall group <- groups :: Packed(group)) && CutsOnlyWhereFull(groups)
  {
    groups := GroupsFrom([], paragraphs);
    assert [] + paragraphs == paragraphs;
  }

  // ---------------------------------------------------------------- Nothing is lost

  lemma {:induction false} ParagraphsKeepContent(s: string)
    ensures Visible(Paragraphs(s)) == NonSpace(s)
    decreases |s|
  {
    hide NonSpace, Visible, SkipLineFeeds, NextBlankLine;
    var p := NextBlankLine(s, 0);
    if p == |s| {
      VisibleOne(s);
    } else {
      var q := SkipLineFeeds(s, p + 2);
      ParagraphsKeepContent(s[q..]);
      VisibleOne(s[..p]);
      VisibleAppend([s[..p]], Paragraphs(s[q..]));
      NonSpaceConcat(s[..p], s[p..q] + s[q..]);
      NonSpaceConcat(s[p..q], s[q..]);
      BlankHasNone(s[p..q]);
      assert s == s[..p] + (s[p..q] + s[q..]);
    }
  }

  lemma {:induction false} BlankHasNone(s: string)
    requires forall i :: 0 <= i < |s| ==> IsSpace(s[i])
    ensures NonSpace(s) == ""
  {
    if s != "" {
      BlankHasNone(s[1..]);
    }
  }

  lemma FlushKeepsContent(current: string)
    ensures Visible(Flush(current)) == NonSpace(current)
  {
    hide NonSpace, Visible, Trim;
    var from := TrimCuts(current);
    VisibleOne(Trim(current));
  }

  lemma JoinKeepsContent(current: string, para: string)
    ensures NonSpace(current + "\n\n" + para) == NonSpace(current) + NonSpace(para)
  {
    hide NonSpace;
    BlankHasNone("\n\n");
    NonSpaceConcat(current, "\n\n");
    NonSpaceConcat(current + "\n\n", para);
    assert NonSpace(current) + "" == NonSpace(current);
  }

  lemma {:induction false} GatherKeepsContent(current: string, paragraphs: seq<string>)
    ensures Visible(Gather(current, paragraphs)) == NonSpace(current) + Visible(paragraphs)
    decreases |paragraphs|
  {
    hide NonSpace, Visible, Flush;
    FlushKeepsContent(current);
    if paragraphs == [] {
      VisibleOne("");
    } else {
      var para, rest := paragraphs[0], paragraphs[1..];
      assert paragraphs == [para] + rest;
      VisibleAppend([para], rest);
      VisibleOne(para);
      if |current| + |para| + 2 > MAX_CHUNK_CHARS {
        GatherKeepsContent(para, rest);
        VisibleAppend(Flush(current), Gather(para, rest));
      } else if current == "" {
        GatherKeepsContent(para, rest);
      } else {
        GatherKeepsContent(current + "\n\n" + para, rest);
        JoinKeepsContent(current, para);
        assert NonSpace(current) + NonSpace(para) + Visible(rest) ==
               NonSpace(current) + (NonSpace(para) + Visible(rest));
      }
    }
  }

  lemma {:induction false} SectionKeepsContent(section: string)
    ensures Visible(OfSection(section)) == NonSpace(section)
  {
    hide NonSpace, Visible, Gather, Paragraphs, Trim;
    var trimmed := Trim(section);
    var from := TrimCuts(section);
    VisibleOne(trimmed);
    if |trimmed| > MAX_CHUNK_CHARS {
      GatherKeepsContent("", Paragraphs(trimmed));
      ParagraphsKeepContent(trimmed);
    }
  }

  lemma {:induction false} SectionsKeepContent(sections: seq<string>)
    ensures Visible(OfSections(sections)) == Visible(sections)
  {
    hide NonSpace, Visible, OfSection;
    if sections == [] {
      VisibleOne("");
    } else {
      var front, last := sections[..|sections| - 1], sections[|sections| - 1];
      SectionsKeepContent(front);
      SectionKeepsContent(last);
      VisibleAppend(OfSections(front), OfSection(last));
      assert sections == front + [last];
      VisibleAppend(front, [last]);
      VisibleOne(last);
    }
  }

  /** The characters of a document other than white space are those of its chunks, in order. */
  lemma {:induction false} ChunksKeepContent(content: string)
    ensures Visible(OfSections(Sections(content))) == NonSpace(content)
  {
    SectionsAreExact(content);
    SectionsKeepContent(Sections(content));
  }

  // ---------------------------------------------------------------- Sizes

  /** A chunk holds something, has no white space at its ends, and is at most as long as allowed
      unless it is a single paragraph that is longer. */
  predicate WellSized(chunk: string, paragraphs: seq<string>) {
    && chunk != "" && !IsSpace(chunk[0]) && !IsSpace(chunk[|chunk| - 1])
    && (|chunk| <= MAX_CHUNK_CHARS || exists p <- paragraphs :: |p| > MAX_CHUNK_CHARS && chunk == Trim(p))
  }

  lemma {:induction false} GatherIsWellSized(current: string, paragraphs: seq<string>, all: seq<string>)
    requires |current| <= MAX_CHUNK_CHARS || current in all
    requires forall p <- paragraphs :: p in all
    ensures forall chunk <- Gather(current, paragraphs) :: WellSized(chunk, all)
    decreases |paragraphs|
  {
    hide Trim;
    var from := TrimCuts(current);
    assert forall chunk <- Flush(current) :: WellSized(chunk, all);
    if paragraphs != [] {
      var para, rest := paragraphs[0], paragraphs[1..];
      if |current| + |para| + 2 > MAX_CHUNK_CHARS || current == "" {
        GatherIsWellSized(para, rest, all);
      } else {
        GatherIsWellSized(current + "\n\n" + para, rest, all);
      }
    }
  }

  // ---------------------------------------------------------------- Headings

  lemma UnbrokenPart(s: string, i: nat, j: nat)
    requires i <= j <= |s| && Unbroken(s)
    ensures Unbroken(s[i..j])
    ensures 0 < i && AtLineStart(s, i) ==> !HeadingAt(s[i..j], 0)
  {
    var part := s[i..j];
    forall p | 0 < p < |part| ensures !Boundary(part, p) {
      if Boundary(part, p) {
        assert Boundary(s, i + p);
      }
    }
    if 0 < i && AtLineStart(s, i) && HeadingAt(part, 0) {
      assert Boundary(s, i);
    }
  }

  /** What follows a paragraph in its section, as far as headings are concerned. */
  function Tail(rest: seq<string>): string {
    if rest == [] then "" else "\n"
  }

  /** Paragraphs that neither start with a heading nor hold one inside. */
  predicate Plain(paragraphs: seq<string>) {
    paragraphs != [] ==>
      var text := paragraphs[0] + Tail(paragraphs[1..]);
      Unbroken(text) && !HeadingAt(text, 0) && Plain(paragraphs[1..])
  }

  lemma {:induction false} ParagraphsArePlain(s: string)
    requires Unbroken(s)
    ensures Unbroken(Paragraphs(s)[0] + Tail(Paragraphs(s)[1..])) && Plain(Paragraphs(s)[1..])
    ensures !HeadingAt(s, 0) ==> !HeadingAt(Paragraphs(s)[0] + Tail(Paragraphs(s)[1..]), 0)
    decreases |s|
  {
    hide Unbroken, HeadingAt, NextBlankLine, SkipLineFeeds;
    var p := NextBlankLine(s, 0);
    if p == |s| {
      assert s + Tail([]) == s;
    } else {
      var q := SkipLineFeeds(s, p + 2);
      UnbrokenPart(s, 0, p + 1);
      UnbrokenPart(s, q, |s|);
      ParagraphsArePlain(s[q..|s|]);
      FirstParagraph(s, p, q);
    }
  }

  lemma FirstParagraph(s: string, p: nat, q: nat)
    requires p + 2 <= q <= |s| && BlankLineAt(s, p) && (forall i :: p <= i < q ==> s[i] == '\n')
    ensures s[..p] + "\n" == s[0..p + 1] && s[q..|s|] == s[q..] && AtLineStart(s, q)
    ensures !HeadingAt(s, 0) ==> !HeadingAt(s[0..p + 1], 0)
  {
  }

  lemma JoinUnbroken(a: string, b: string)
    requires Unbroken(a + "\n") && Unbroken(b) && !HeadingAt(b, 0)
    ensures Unbroken(a + "\n\n" + b)
  {
    var s, before := a + "\n\n" + b, a + "\n";
    forall p | 0 < p < |s| ensures !Boundary(s, p) {
      if p < |a| {
        assert !Boundary(before, p);
      } else if p >= |a| + 2 {
        assert s[|a| + 2..] == b;
        assert p > |a| + 2 ==> !Boundary(b, p - |a| - 2);
      }
    }
  }

  lemma FlushUnbroken(current: string, tail: string)
    requires Unbroken(current + tail)
    ensures forall chunk <- Flush(current) :: Unbroken(chunk)
  {
    hide Unbroken, Trim;
    var from := TrimCuts(current);
    UnbrokenPart(current + tail, from, from + |Trim(current)|);
    assert (current + tail)[from..from + |Trim(current)|] == Trim(current);
  }

  lemma FlushNothing()
    ensures Flush("") == []
  {
  }

  lemma {:induction false} GatherUnbroken(current: string, paragraphs: seq<string>)
    requires Plain(paragraphs) && Unbroken(current + Tail(paragraphs))
    ensures forall chunk <- Gather(current, paragraphs) :: Unbroken(chunk)
    decreases |paragraphs|
  {
    hide Unbroken, Flush, HeadingAt;
    FlushUnbroken(current, Tail(paragraphs));
    if paragraphs != [] {
      var para, rest := paragraphs[0], paragraphs[1..];
      if |current| + |para| + 2 > MAX_CHUNK_CHARS || current == "" {
        GatherUnbroken(para, rest);
      } else {
        JoinUnbroken(current, para + Tail(rest));
        assert current + "\n\n" + (para + Tail(rest)) == current + "\n\n" + para + Tail(rest);
        GatherUnbroken(current + "\n\n" + para, rest);
      }
    }
  }

  lemma SectionUnbroken(section: string)
    requires Unbroken(section)
    ensures forall chunk <- OfSection(section) :: Unbroken(chunk)
  {
    hide Unbroken, Trim, Plain, Paragraphs;
    var trimmed := Trim(section);
    var from := TrimCuts(section);
    UnbrokenPart(section, from, from + |trimmed|);
    if |trimmed| > MAX_CHUNK_CHARS {
      var paragraphs := Paragraphs(trimmed);
      ParagraphsArePlain(trimmed);
      var first := paragraphs[0];
      GatherUnbroken(first, paragraphs[1..]);
      FlushNothing();
      assert [] + Gather(first, paragraphs[1..]) == Gather(first, paragraphs[1..]);
    }
  }

  // ---------------------------------------------------------------- Chunks of a document

  lemma {:induction false} ChunkOfSomeSection(sections: seq<string>, chunk: string)
    requires chunk in OfSections(sections)
    ensures exists section <- sections :: chunk in OfSection(section)
  {
    var front, last := sections[..|sections| - 1], sections[|sections| - 1];
    if chunk !in OfSection(last) {
      ChunkOfSomeSection(front, chunk);
    }
  }

  /** Every chunk comes from one section, is well sized, and no heading line starts inside it. */
  lemma {:induction false} ChunksRespectLimits(content: string, chunk: string)
    requires chunk in OfSections(Sections(content))
    ensures exists section <- Sections(content) ::
              chunk in OfSection(section) && WellSized(chunk, Paragraphs(Trim(section)))
    ensures Unbroken(chunk)
  {
    hide Unbroken, Trim, Gather, OfSections, Sections;
    SectionsAreExact(content);
    ChunkOfSomeSection(Sections(content), chunk);
    var section :| section in Sections(content) && chunk in OfSection(section);
    SectionUnbroken(section);
    var trimmed := Trim(section);
    var from := TrimCuts(section);
    var paragraphs := Paragraphs(trimmed);
    GatherIsWellSized("", paragraphs, paragraphs);
    assert WellSized(chunk, paragraphs);
  }
}
