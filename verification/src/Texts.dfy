/** White space, and what is left of a text without it. */
module Texts {

  /** White space and line terminators as `String.prototype.trim` and `\s` see them. */
  predicate IsSpace(c: char) {
    || c == '\t' || c == '\n' || c == '\U{000B}' || c == '\U{000C}' || c == '\r' || c == ' '
    || c == '\U{00A0}' || c == '\U{1680}' || '\U{2000}' <= c <= '\U{200A}' || c == '\U{2028}' || c == '\U{2029}'
    || c == '\U{202F}' || c == '\U{205F}' || c == '\U{3000}' || c == '\U{FEFF}'
  }

  function TrimStart(s: string): string {
    if s != "" && IsSpace(s[0]) then TrimStart(s[1..]) else s
  }

  function TrimEnd(s: string): string {
    if s != "" && IsSpace(s[|s| - 1]) then TrimEnd(s[..|s| - 1]) else s
  }

  function Trim(s: string): string {
    TrimEnd(TrimStart(s))
  }

  /** The characters of a text other than white space, in order. */
  function NonSpace(s: string): string {
    if s == "" then ""
    else (if IsSpace(s[0]) then "" else [s[0]]) + NonSpace(s[1..])
  }

  function Concat(texts: seq<string>): string {
    if texts == [] then "" else texts[0] + Concat(texts[1..])
  }

  lemma {:induction false} NonSpaceConcat(a: string, b: string)
    ensures NonSpace(a + b) == NonSpace(a) + NonSpace(b)
  {
    if a == "" {
      assert a + b == b;
    } else {
      NonSpaceConcat(a[1..], b);
      assert (a + b)[1..] == a[1..] + b;
    }
  }

  lemma {:induction false} ConcatAppend(a: seq<string>, b: seq<string>)
    ensures Concat(a + b) == Concat(a) + Concat(b)
  {
    if a == [] {
      assert a + b == b;
    } else {
      ConcatAppend(a[1..], b);
      assert (a + b)[1..] == a[1..] + b;
    }
  }

  /** The characters of all texts other than white space, in order. */
  function Visible(texts: seq<string>): string {
    NonSpace(Concat(texts))
  }

  lemma VisibleAppend(a: seq<string>, b: seq<string>)
    ensures Visible(a + b) == Visible(a) + Visible(b)
  {
    ConcatAppend(a, b);
    NonSpaceConcat(Concat(a), Concat(b));
  }

  lemma VisibleOne(text: string)
    ensures Visible([]) == NonSpace("") == "" && Visible([text]) == NonSpace(text)
  {
    assert Concat([text]) == text + Concat([]);
    assert text + Concat([]) == text;
  }

  lemma {:induction false} TrimStartCuts(s: string)
    ensures |TrimStart(s)| <= |s| && TrimStart(s) == s[|s| - |TrimStart(s)|..]
    ensures NonSpace(TrimStart(s)) == NonSpace(s)
    ensures TrimStart(s) != "" ==> !IsSpace(TrimStart(s)[0])
  {
    if s != "" && IsSpace(s[0]) {
      TrimStartCuts(s[1..]);
    }
  }

  lemma {:induction false} TrimEndCuts(s: string)
    ensures |TrimEnd(s)| <= |s| && TrimEnd(s) == s[..|TrimEnd(s)|]
    ensures NonSpace(TrimEnd(s)) == NonSpace(s)
    ensures TrimEnd(s) != "" ==> !IsSpace(TrimEnd(s)[|TrimEnd(s)| - 1])
  {
    if s != "" && IsSpace(s[|s| - 1]) {
      var front, last := s[..|s| - 1], s[|s| - 1..];
      TrimEndCuts(front);
      assert s == front + last;
      NonSpaceConcat(front, last);
      assert last[1..] == "";
    }
  }

  /** Trimming takes white space from the two ends and nothing else; `from` says where it starts. */
  lemma TrimCuts(s: string) returns (from: nat)
    ensures from + |Trim(s)| <= |s| && Trim(s) == s[from..from + |Trim(s)|]
    ensures NonSpace(Trim(s)) == NonSpace(s)
    ensures Trim(s) != "" ==> !IsSpace(Trim(s)[0]) && !IsSpace(Trim(s)[|Trim(s)| - 1])
  {
    TrimStartCuts(s);
    TrimEndCuts(TrimStart(s));
    from := |s| - |TrimStart(s)|;
  }
}
