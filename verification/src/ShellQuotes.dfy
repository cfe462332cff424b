/** Quoting a text for the shell, against the quoting rules of sections 2.2.1 and 2.2.2 of the
    POSIX.1-2017 Shell Command Language. */
module ShellQuotes {
  import opened Wrappers

  /** Puts the text between quotes, after replacing each quote in it. */
  function ShellEscape(s: string): string {
    "'" + (Replaced(s) + "'")
  }

  function Replaced(s: string): string {
    if s == "" then ""
    else (if s[0] == '\'' then "'\\''" else [s[0]]) + Replaced(s[1..])
  }

  /** The command that runs `command` by a shell inside a container. */
  function DockerCommand(container: string, command: string): string {
    "docker exec " + (container + (" sh -c " + ShellEscape(command)))
  }

  // ---------------------------------------------------------------- Reading

  /** Characters that mean something outside quotes, as section 2.2 lists them; reading gives up on
      them. No text that a shell reads holds a null character. */
  predicate IsSpecial(c: char) {
    || c in "|&;<>()$`\"\n" || c in "*?[#~=%" || c in "{}!" || c == '\0'
  }

  predicate IsBlank(c: char) {
    c == ' ' || c == '\t'
  }

  predicate IsPlain(c: char) {
    !IsSpecial(c) && !IsBlank(c) && c != '\\' && c != '\''
  }

  function Cons(word: string, words: Option<seq<string>>): Option<seq<string>> {
    if words.None? then None else Some([word] + words.value)
  }

  function Content(word: Option<string>): string {
    if word.Some? then word.value else ""
  }

  /** The words of `s`, where `word` is what has been read of the current one. A backslash stands for
      the next character, or joins two lines; a quote takes all up to the next as it is. */
  function Words(s: string, word: Option<string>): Option<seq<string>>
    decreases |s|
  {
    if s == "" then Some(if word.Some? then [word.value] else [])
    else if IsBlank(s[0]) then
      if word.Some? then Cons(word.value, Words(s[1..], None)) else Words(s[1..], None)
    else if s[0] == '\\' then
      if |s| == 1 then None
      else if s[1] == '\n' then Words(s[2..], word)
      else if s[1] == '\0' then None
      else Words(s[2..], Some(Content(word) + [s[1]]))
    else if s[0] == '\'' then Quoted(s[1..], Content(word))
    else if IsSpecial(s[0]) then None
    else Words(s[1..], Some(Content(word) + [s[0]]))
  }

  function Quoted(s: string, word: string): Option<seq<string>>
    decreases |s|
  {
    if s == "" || s[0] == '\0' then None
    else if s[0] == '\'' then Words(s[1..], Some(word))
    else Quoted(s[1..], word + [s[0]])
  }

  /** The words that the shell makes of a command line; None if it does more than quoting. */
  function Read(line: string): Option<seq<string>> {
    Words(line, None)
  }

  predicate NullFree(s: string) {
    '\0' !in s
  }

  // ---------------------------------------------------------------- Round trip

  /** Inside quotes, the replaced text is read as the text itself. */
  lemma {:induction false} ReplacedIsRead(s: string, rest: string, word: string)
    ensures Quoted(Replaced(s) + ("'" + rest), word) ==
            if NullFree(s) then Words(rest, Some(word + s)) else None
    decreases |s|
  {
    var text := Replaced(s) + ("'" + rest);
    if s == "" {
      assert text == "'" + rest && word + s == word;
    } else {
      var after := Replaced(s[1..]) + ("'" + rest);
      ReplacedIsRead(s[1..], rest, word + [s[0]]);
      assert word + [s[0]] + s[1..] == word + s;
      assert NullFree(s) <==> s[0] != '\0' && NullFree(s[1..]) by {
        assert s == [s[0]] + s[1..];
      }
      if s[0] == '\'' {
        assert text == "'\\''" + after;
        QuoteIsRead(after, word);
      } else {
        assert text == [s[0]] + after;
      }
    }
  }

  /** The quote is closed, a quote is read after a backslash, and the next one opened. */
  lemma QuoteIsRead(after: string, word: string)
    ensures Quoted("'\\''" + after, word) == Quoted(after, word + "'")
  {
    var text := "'\\''" + after;
    assert text[1..] == "\\''" + after;
    assert text[1..][2..] == "'" + after;
    assert ("'" + after)[1..] == after;
    assert Words(text[1..], Some(word)) == Words("'" + after, Some(word + "'"));
  }

  /** A quoted text continues the word it stands in. */
  lemma EscapedIsRead(s: string, rest: string, word: Option<string>)
    ensures Words(ShellEscape(s) + rest, word) ==
            if NullFree(s) then Words(rest, Some(Content(word) + s)) else None
  {
    ReplacedIsRead(s, rest, Content(word));
    assert ShellEscape(s) + rest == "'" + (Replaced(s) + ("'" + rest));
  }

  /** A quoted text is read as one word, the text itself, exactly if it has no null character. */
  lemma RoundTrip(s: string)
    ensures Read(ShellEscape(s)) == if NullFree(s) then Some([s]) else None
  {
    EscapedIsRead(s, "", None);
    assert ShellEscape(s) + "" == ShellEscape(s) && "" + s == s;
  }

  function Append(a: Option<seq<string>>, b: Option<seq<string>>): Option<seq<string>> {
    if a.None? || b.None? then None else Some(a.value + b.value)
  }

  lemma ConsAppend(word: string, a: Option<seq<string>>, b: Option<seq<string>>)
    ensures Append(Cons(word, a), b) == Cons(word, Append(a, b))
    ensures Append(Some([]), b) == b && Append(Some([word]), b) == Cons(word, b)
  {
    if a.Some? && b.Some? {
      assert [word] + a.value + b.value == [word] + (a.value + b.value);
    }
    if b.Some? {
      assert [] + b.value == b.value;
    }
  }

  /** After a line that can be read and a blank, reading starts afresh. */
  lemma {:induction false} ReadAfterBlank(line: string, rest: string, word: Option<string>)
    requires Words(line, word).Some?
    ensures Words(line + (" " + rest), word) == Append(Words(line, word), Words(rest, None))
    decreases |line|
  {
    var all := line + (" " + rest);
    if word.Some? {
      ConsAppend(word.value, if line == "" then None else Words(line[1..], None), Words(rest, None));
    } else {
      ConsAppend("", None, Words(rest, None));
    }
    if line == "" {
      assert all == " " + rest && all[1..] == rest;
    } else {
      assert all[0] == line[0] && all[1..] == line[1..] + (" " + rest);
      if IsBlank(line[0]) {
        ReadAfterBlank(line[1..], rest, None);
      } else if line[0] == '\\' {
        assert all[1] == line[1] && all[2..] == line[2..] + (" " + rest);
        ReadAfterBlank(line[2..], rest, if line[1] == '\n' then word else Some(Content(word) + [line[1]]));
      } else if line[0] == '\'' {
        QuotedAfterBlank(line[1..], rest, Content(word));
      } else {
        ReadAfterBlank(line[1..], rest, Some(Content(word) + [line[0]]));
      }
    }
  }

  lemma {:induction false} QuotedAfterBlank(line: string, rest: string, word: string)
    requires Quoted(line, word).Some?
    ensures Quoted(line + (" " + rest), word) == Append(Quoted(line, word), Words(rest, None))
    decreases |line|
  {
    var all := line + (" " + rest);
    assert all[0] == line[0] && all[1..] == line[1..] + (" " + rest);
    if line[0] == '\'' {
      ReadAfterBlank(line[1..], rest, Some(word));
    } else {
      QuotedAfterBlank(line[1..], rest, word + [line[0]]);
    }
  }

  /** Whatever stands before it, a quoted text is one more argument and nothing else. */
  lemma QuotedArgument(line: string, s: string)
    requires Read(line).Some? && NullFree(s)
    ensures Read(line + (" " + ShellEscape(s))) == Some(Read(line).value + [s])
  {
    ReadAfterBlank(line, ShellEscape(s), None);
    RoundTrip(s);
  }

  lemma {:induction false} PlainIsRead(s: string, rest: string, word: Option<string>)
    requires forall c <- s :: IsPlain(c)
    ensures s != "" ==> Words(s + rest, word) == Words(rest, Some(Content(word) + s))
  {
    if s != "" {
      assert (s + rest)[1..] == s[1..] + rest && s[0] in s;
      if s[1..] == "" {
        assert s[1..] + rest == rest && [s[0]] == s;
      } else {
        PlainIsRead(s[1..], rest, Some(Content(word) + [s[0]]));
        assert Content(word) + [s[0]] + s[1..] == Content(word) + s;
      }
    }
  }

  lemma PlainWord(s: string, rest: string)
    requires s != "" && forall c <- s :: IsPlain(c)
    ensures Read(s + (" " + rest)) == Cons(s, Read(rest))
  {
    PlainIsRead(s, " " + rest, None);
    assert "" + s == s && (" " + rest)[1..] == rest;
  }

  lemma SixWords(a: string, b: string, c: string, d: string, e: string, f: string)
    ensures Cons(a, Cons(b, Cons(c, Cons(d, Cons(e, Some([f])))))) == Some([a, b, c, d, e, f])
  {
    assert [e] + [f] == [e, f];
    assert [d] + [e, f] == [d, e, f];
    assert [c] + [d, e, f] == [c, d, e, f];
    assert [b] + [c, d, e, f] == [b, c, d, e, f];
    assert [a] + [b, c, d, e, f] == [a, b, c, d, e, f];
  }

  /** The command line, word for word; `fourth` is the part after the container's name. */
  lemma DockerWords(container: string, command: string, fourth: string)
    requires fourth == "sh" + (" " + ("-c" + (" " + ShellEscape(command))))
    ensures DockerCommand(container, command) == "docker" + (" " + ("exec" + (" " + (container + (" " + fourth)))))
  {
    assert " " + fourth == " sh -c " + ShellEscape(command);
  }

  /** The outer shell passes the command on unchanged, as the last of six words. */
  lemma CommandReachesContainer(container: string, command: string)
    requires container != "" && forall c <- container :: IsPlain(c)
    requires NullFree(command)
    ensures Read(DockerCommand(container, command)) == Some(["docker", "exec", container, "sh", "-c", command])
  {
    hide Read, ShellEscape, Cons, DockerCommand;
    RoundTrip(command);
    var last := ShellEscape(command);
    var fourth := "sh" + (" " + ("-c" + (" " + last)));
    DockerWords(container, command, fourth);
    PlainWord("-c", last);
    PlainWord("sh", "-c" + (" " + last));
    PlainWord(container, fourth);
    PlainWord("exec", container + (" " + fourth));
    PlainWord("docker", "exec" + (" " + (container + (" " + fourth))));
    SixWords("docker", "exec", container, "sh", "-c", command);
  }
}
