/** Bringing the messages of a channel's log into the session that the model sees. */
module LogSync {
  import opened Wrappers

  // ---------------------------------------------------------------- Texts of the session

  datatype Part = TextPart(text: string) | OtherPart

  datatype Content = Plain(text: string) | Parts(parts: seq<Part>)

  datatype Entry =
    | UserEntry(content: Option<Content>, timestamp: int)
    | OtherEntry

  const MARKER := "\n\n<slack_attachments>\n"

  /** The timestamp pattern: `d` stands for a digit and `s` for a sign. */
  const TEMPLATE := "[dddd-dd-dd dd:dd:ddsdd:dd] "

  predicate IsDigit(c: char) {
    '0' <= c <= '9'
  }

  predicate Fits(c: char, t: char) {
    if t == 'd' then IsDigit(c) else if t == 's' then c in {'+', '-'} else c == t
  }

  predicate Matches(s: string, template: string) {
    |s| == |template| && forall i :: 0 <= i < |s| ==> Fits(s[i], template[i])
  }

  predicate Stamped(s: string) {
    |s| >= |TEMPLATE| && Matches(s[..|TEMPLATE|], TEMPLATE)
  }

  predicate OccursAt(s: string, m: string, i: nat) {
    i + |m| <= |s| && s[i..i + |m|] == m
  }

  ghost predicate Occurs(s: string, m: string) {
    exists i: nat :: OccursAt(s, m, i)
  }

  /** `indexOf`, counting from `from`; None for -1. */
  function IndexOf(s: string, m: string, from: nat): (r: Option<nat>)
    requires from <= |s|
    ensures r.Some? ==> from <= r.value && OccursAt(s, m, r.value)
    ensures r.Some? ==> forall i :: from <= i < r.value ==> !OccursAt(s, m, i)
    ensures r.None? ==> forall i: nat :: from <= i ==> !OccursAt(s, m, i)
    decreases |s| - from
  {
    if OccursAt(s, m, from) then Some(from)
    else if from == |s| then None
    else IndexOf(s, m, from + 1)
  }

  /** Without the section that lists the attachments. */
  function Cut(s: string): string {
    match IndexOf(s, MARKER, 0)
    case Some(i) => s[..i]
    case None => s
  }

  /** A user text as it is compared: without its timestamp and its attachments. */
  function Normalize(s: string): string {
    Cut(if Stamped(s) then s[|TEMPLATE|..] else s)
  }

  lemma CutLeavesNoMarker(s: string)
    ensures !Occurs(Cut(s), MARKER)
    ensures !Occurs(s, MARKER) ==> Cut(s) == s
  {
    if IndexOf(s, MARKER, 0).Some? {
      var i := IndexOf(s, MARKER, 0).value;
      forall j: nat ensures !OccursAt(s[..i], MARKER, j) {
        if OccursAt(s[..i], MARKER, j) {
          assert s[j..j + |MARKER|] == s[..i][j..j + |MARKER|];
          assert OccursAt(s, MARKER, j);
        }
      }
    }
  }

  function TextsOfParts(parts: seq<Part>): set<string> {
    if parts == [] then {}
    else
      TextsOfParts(parts[..|parts| - 1]) +
      match parts[|parts| - 1]
      case TextPart(text) => {Normalize(text)}
      case OtherPart => {}
  }

  function TextsOfEntry(entry: Entry): set<string> {
    match entry
    case UserEntry(Some(Plain(text)), _) => {Normalize(text)}
    case UserEntry(Some(Parts(parts)), _) => TextsOfParts(parts)
    case _ => {}
  }

  /** Every user text in the session, normalized. */
  function Existing(entries: seq<Entry>): set<string> {
    if entries == [] then {}
    else Existing(entries[..|entries| - 1]) + TextsOfEntry(entries[|entries| - 1])
  }

  // ---------------------------------------------------------------- Lines of the log

  datatype LogMessage = LogMessage(
    date: Option<string>, ts: Option<string>, user: Option<string>,
    userName: Option<string>, text: Option<string>, isBot: bool)

  predicate Falsy(s: Option<string>) {
    s.None? || s.value == ""
  }

  function Or(s: Option<string>, otherwise: string): string {
    if Falsy(s) then otherwise else s.value
  }

  function Label(name: string, text: string): string {
    "[" + name + "]: " + text
  }

  function TextOf(m: LogMessage): string {
    Label(Or(m.userName, Or(m.user, "unknown")), Or(m.text, ""))
  }

  /** The lines that belong into the session; None is a line that is no JSON object. */
  predicate Eligible(line: Option<LogMessage>, exclude: Option<string>) {
    && line.Some?
    && !Falsy(line.value.ts) && !Falsy(line.value.date)
    && (Falsy(exclude) || line.value.ts != exclude)
    && !line.value.isBot
  }

  datatype Addition = Addition(timestamp: int, text: string)

  /** What the surroundings tell: the reading of a date, if it is one, and the time of day when a
      line is handled. */
  datatype Clock = Clock(parse: string -> Option<int>, now: nat -> int)

  function TimeOf(clock: Clock, m: LogMessage, line: nat): int
    requires m.date.Some?
  {
    var parsed := clock.parse(m.date.value);
    if parsed.Some? && parsed.value != 0 then parsed.value else clock.now(line)
  }

  function TextsOf(additions: seq<Addition>): set<string> {
    set a <- additions :: a.text
  }

  /** The messages of the log that are not in the session, each text once, in the log's order. */
  function Collect(existing: set<string>, lines: seq<Option<LogMessage>>, exclude: Option<string>, clock: Clock)
    : seq<Addition>
  {
    if lines == [] then []
    else
      var n := |lines| - 1;
      var before := Collect(existing, lines[..n], exclude, clock);
      if Eligible(lines[n], exclude) && TextOf(lines[n].value) !in existing + TextsOf(before)
      then before + [Addition(TimeOf(clock, lines[n].value, n), TextOf(lines[n].value))]
      else before
  }

  /** The texts of all messages of the log that belong into the session. */
  function Wanted(lines: seq<Option<LogMessage>>, exclude: Option<string>): set<string> {
    set line <- lines | Eligible(line, exclude) :: TextOf(line.value)
  }

  lemma {:induction false} CollectsWhatIsMissing(existing: set<string>, lines: seq<Option<LogMessage>>,
                                                 exclude: Option<string>, clock: Clock)
    ensures TextsOf(Collect(existing, lines, exclude, clock)) == Wanted(lines, exclude) - existing
  {
    if lines != [] {
      var n := |lines| - 1;
      var before := Collect(existing, lines[..n], exclude, clock);
      CollectsWhatIsMissing(existing, lines[..n], exclude, clock);
      assert lines == lines[..n] + [lines[n]];
      WantedSnoc(lines[..n], lines[n], exclude);
      if Eligible(lines[n], exclude) {
        TextsSnoc(before, Addition(TimeOf(clock, lines[n].value, n), TextOf(lines[n].value)));
      }
    }
  }

  /** The `i`-th line has a time stamp and a date, is neither the excluded message nor a bot's, and is
      the first such line with its text; it gives `a`. */
  ghost predicate Gives(lines: seq<Option<LogMessage>>, exclude: Option<string>, clock: Clock, i: nat, a: Addition) {
    && i < |lines| && Belongs(lines[i], exclude)
    && a == Addition(TimeOf(clock, lines[i].value, i), TextOf(lines[i].value))
    && forall j :: 0 <= j < i && Belongs(lines[j], exclude) ==> TextOf(lines[j].value) != a.text
  }

  predicate Belongs(line: Option<LogMessage>, exclude: Option<string>) {
    && line.Some? && !line.value.isBot
    && line.value.ts.Some? && line.value.ts.value != "" && line.value.date.Some? && line.value.date.value != ""
    && (exclude.Some? && exclude.value != "" ==> line.value.ts.value != exclude.value)
  }

  /** A line adds its text exactly if it belongs into the session, comes first with its text, and the
      session lacks the text: no bot's line and not the excluded one. */
  lemma {:induction false} CollectsFirstLines(existing: set<string>, lines: seq<Option<LogMessage>>,
                                              exclude: Option<string>, clock: Clock, a: Addition)
    ensures a in Collect(existing, lines, exclude, clock) <==>
            a.text !in existing && exists i :: Gives(lines, exclude, clock, i, a)
  {
    if lines != [] {
      var n := |lines| - 1;
      CollectsFirstLines(existing, lines[..n], exclude, clock, a);
      CollectsWhatIsMissing(existing, lines[..n], exclude, clock);
      forall i: nat | i < n ensures Gives(lines, exclude, clock, i, a) <==> Gives(lines[..n], exclude, clock, i, a) {
      }
      LastLineGives(lines, exclude, clock, a);
      hide Wanted, Gives, Eligible, TimeOf, TextOf;
    }
  }

  lemma LastLineGives(lines: seq<Option<LogMessage>>, exclude: Option<string>, clock: Clock, a: Addition)
    requires lines != []
    ensures var n := |lines| - 1;
      Gives(lines, exclude, clock, n, a) <==>
        Eligible(lines[n], exclude) && a == Addition(TimeOf(clock, lines[n].value, n), TextOf(lines[n].value)) &&
        a.text !in Wanted(lines[..n], exclude)
  {
  }

  lemma WantedSnoc(lines: seq<Option<LogMessage>>, line: Option<LogMessage>, exclude: Option<string>)
    ensures Wanted(lines + [line], exclude) ==
            Wanted(lines, exclude) + if Eligible(line, exclude) then {TextOf(line.value)} else {}
  {
    assert line in lines + [line];
    assert forall l :: l in lines + [line] <==> l in lines || l == line;
  }

  lemma TextsSnoc(additions: seq<Addition>, a: Addition)
    ensures TextsOf(additions + [a]) == TextsOf(additions) + {a.text}
  {
    assert forall x :: x in additions + [a] <==> x in additions || x == a;
  }

  // ---------------------------------------------------------------- Sorting

  function Insert(sorted: seq<Addition>, a: Addition): seq<Addition> {
    if sorted != [] && sorted[|sorted| - 1].timestamp > a.timestamp
    then Insert(sorted[..|sorted| - 1], a) + [sorted[|sorted| - 1]]
    else sorted + [a]
  }

  /** `Array.prototype.sort` by timestamp. */
  function Sort(additions: seq<Addition>): seq<Addition> {
    if additions == [] then []
    else Insert(Sort(additions[..|additions| - 1]), additions[|additions| - 1])
  }

  predicate InTimeOrder(additions: seq<Addition>) {
    forall i, j :: 0 <= i < j < |additions| ==> additions[i].timestamp <= additions[j].timestamp
  }

  /** The additions of one time, in order. */
  function At(additions: seq<Addition>, time: int): seq<Addition> {
    if additions == [] then []
    else
      var last := additions[|additions| - 1];
      At(additions[..|additions| - 1], time) + if last.timestamp == time then [last] else []
  }

  lemma AtSnoc(additions: seq<Addition>, a: Addition, time: int)
    ensures At(additions + [a], time) == At(additions, time) + if a.timestamp == time then [a] else []
  {
    assert (additions + [a])[..|additions|] == additions;
  }

  lemma OrderedSnoc(additions: seq<Addition>, a: Addition)
    requires InTimeOrder(additions) && forall x <- additions :: x.timestamp <= a.timestamp
    ensures InTimeOrder(additions + [a])
  {
  }

  lemma LastIsLatest(sorted: seq<Addition>)
    requires InTimeOrder(sorted) && sorted != []
    ensures InTimeOrder(sorted[..|sorted| - 1]) && sorted == sorted[..|sorted| - 1] + [sorted[|sorted| - 1]]
    ensures forall x <- sorted :: x.timestamp <= sorted[|sorted| - 1].timestamp
  {
  }

  lemma {:induction false} InsertSorts(sorted: seq<Addition>, a: Addition)
    requires InTimeOrder(sorted)
    ensures InTimeOrder(Insert(sorted, a)) && multiset(Insert(sorted, a)) == multiset(sorted) + multiset{a}
  {
    hide InTimeOrder;
    if sorted != [] {
      var front, last := sorted[..|sorted| - 1], sorted[|sorted| - 1];
      LastIsLatest(sorted);
      if last.timestamp > a.timestamp {
        InsertSorts(front, a);
        var r := Insert(front, a);
        forall x <- r ensures x.timestamp <= last.timestamp {
          assert x in multiset(r);
        }
        OrderedSnoc(r, last);
      } else {
        OrderedSnoc(sorted, a);
      }
    } else {
      OrderedSnoc(sorted, a) by { assert InTimeOrder(sorted); }
    }
  }

  lemma {:induction false} InsertIsStable(sorted: seq<Addition>, a: Addition, time: int)
    requires InTimeOrder(sorted)
    ensures At(Insert(sorted, a), time) == At(sorted, time) + if a.timestamp == time then [a] else []
  {
    hide At;
    if sorted != [] && sorted[|sorted| - 1].timestamp > a.timestamp {
      var front, last := sorted[..|sorted| - 1], sorted[|sorted| - 1];
      LastIsLatest(sorted);
      InsertIsStable(front, a, time);
      AtSnoc(front, last, time);
      AtSnoc(Insert(front, a), last, time);
      if a.timestamp == time {
        NoneThatLate(front, last, time, a);
      }
    } else {
      AtSnoc(sorted, a, time);
    }
  }

  lemma NoneThatLate(front: seq<Addition>, last: Addition, time: int, a: Addition)
    requires a.timestamp == time < last.timestamp
    ensures At(front, time) + [a] + [] == At(front, time) + [] + [a]
  {
  }

  lemma {:induction false} SortOrders(additions: seq<Addition>)
    ensures InTimeOrder(Sort(additions)) && multiset(Sort(additions)) == multiset(additions)
  {
    if additions != [] {
      hide InTimeOrder, Insert;
      var front, last := additions[..|additions| - 1], additions[|additions| - 1];
      SortOrders(front);
      InsertSorts(Sort(front), last);
      assert additions == front + [last];
    }
  }

  /** Additions of the same time stay in the log's order. */
  lemma {:induction false} SortIsStable(additions: seq<Addition>, time: int)
    ensures At(Sort(additions), time) == At(additions, time)
  {
    hide At, InTimeOrder, Insert;
    if additions != [] {
      var front, last := additions[..|additions| - 1], additions[|additions| - 1];
      SortIsStable(front, time);
      SortOrders(front);
      InsertIsStable(Sort(front), last, time);
      assert additions == front + [last];
      AtSnoc(front, last, time);
    }
  }

  // ---------------------------------------------------------------- The sync

  function MessageOf(a: Addition): Entry {
    UserEntry(Some(Parts([TextPart(a.text)])), a.timestamp)
  }

  function Messages(additions: seq<Addition>): seq<Entry> {
    seq(|additions|, i requires 0 <= i < |additions| => MessageOf(additions[i]))
  }

  /** What a sync appends to the session. */
  function Appended(entries: seq<Entry>, lines: seq<Option<LogMessage>>, exclude: Option<string>, clock: Clock)
    : seq<Addition>
  {
    Sort(Collect(Existing(entries), lines, exclude, clock))
  }

  function Synced(entries: seq<Entry>, lines: seq<Option<LogMessage>>, exclude: Option<string>, clock: Clock)
    : seq<Entry>
  {
    entries + Messages(Appended(entries, lines, exclude, clock))
  }

  class SessionManager {
    var entries: seq<Entry>

    constructor (entries: seq<Entry>)
      ensures this.entries == entries
    {
      this.entries := entries;
    }

    method AppendMessage(message: Entry)
      modifies this
      ensures entries == old(entries) + [message]
    {
      entries := entries + [message];
    }
  }

  /** `logged` is None if there is no log file; the result is how many messages are added. */
  method SyncLogToSessionManager(sessionManager: SessionManager, logged: Option<seq<Option<LogMessage>>>,
                                 exclude: Option<string>, clock: Clock)
    returns (added: nat)
    modifies sessionManager
    ensures logged.None? ==> sessionManager.entries == old(sessionManager.entries) && added == 0
    ensures logged.Some? ==>
              && sessionManager.entries == Synced(old(sessionManager.entries), logged.value, exclude, clock)
              && added == |Appended(old(sessionManager.entries), logged.value, exclude, clock)|
  {
    hide Existing, Collect, Sort, Messages;
    if logged.None? {
      return 0;
    }
    var existingMessages := CollectExisting(sessionManager.entries);
    var newMessages := CollectNew(existingMessages, logged.value, exclude, clock);
    SortOrders(newMessages);
    SameSize(Sort(newMessages), newMessages);
    if |newMessages| == 0 {
      NothingAppended(sessionManager.entries, Sort(newMessages));
      return 0;
    }
    newMessages := Sort(newMessages);
    AppendAll(sessionManager, newMessages);
    added := |newMessages|;
  }

  /** The loop over the lines of the log. */
  method CollectNew(existing: set<string>, lines: seq<Option<LogMessage>>, exclude: Option<string>, clock: Clock)
    returns (newMessages: seq<Addition>)
    ensures newMessages == Collect(existing, lines, exclude, clock)
  {
    hide Eligible, TextOf, TimeOf, Falsy;
    var existingMessages := existing;
    newMessages := [];
    for i := 0 to |lines|
      invariant newMessages == Collect(existing, lines[..i], exclude, clock)
      invariant existingMessages == existing + TextsOf(newMessages)
    {
      assert lines[..i + 1][..i] == lines[..i];
      TimeNeedsDate(lines[i], exclude);
      if Eligible(lines[i], exclude) {
        var text := TextOf(lines[i].value);
        if text !in existingMessages {
          var addition := Addition(TimeOf(clock, lines[i].value, i), text);
          TextsSnoc(newMessages, addition);
          newMessages := newMessages + [addition];
          existingMessages := existingMessages + {text};
        }
      }
    }
    assert lines[..|lines|] == lines;
  }

  lemma NothingAppended(entries: seq<Entry>, additions: seq<Addition>)
    requires |additions| == 0
    ensures entries + Messages(additions) == entries
  {
  }

  /** The loop that adds the messages to the session. */
  method AppendAll(sessionManager: SessionManager, newMessages: seq<Addition>)
    modifies sessionManager
    ensures sessionManager.entries == old(sessionManager.entries) + Messages(newMessages)
  {
    for i := 0 to |newMessages|
      invariant sessionManager.entries == old(sessionManager.entries) + Messages(newMessages[..i])
    {
      MessagesSnoc(newMessages, i);
      sessionManager.AppendMessage(MessageOf(newMessages[i]));
    }
    assert newMessages[..|newMessages|] == newMessages;
  }

  lemma TimeNeedsDate(line: Option<LogMessage>, exclude: Option<string>)
    ensures Eligible(line, exclude) ==> line.Some? && line.value.date.Some?
  {
  }

  lemma MessagesSnoc(additions: seq<Addition>, i: nat)
    requires i < |additions|
    ensures Messages(additions[..i + 1]) == Messages(additions[..i]) + [MessageOf(additions[i])]
  {
  }

  lemma SameSize(a: seq<Addition>, b: seq<Addition>)
    requires multiset(a) == multiset(b)
    ensures |a| == |b|
  {
    assert |multiset(a)| == |multiset(b)|;
  }

  method CollectExisting(entries: seq<Entry>) returns (existing: set<string>)
    ensures existing == Existing(entries)
  {
    existing := {};
    for i := 0 to |entries|
      invariant existing == Existing(entries[..i])
    {
      assert entries[..i + 1][..i] == entries[..i];
      match entries[i]
      case UserEntry(Some(Plain(text)), _) =>
        existing := existing + {Normalize(text)};
      case UserEntry(Some(Parts(parts)), _) =>
        ghost var before := existing;
        for j := 0 to |parts|
          invariant existing == before + TextsOfParts(parts[..j])
        {
          assert parts[..j + 1][..j] == parts[..j];
          if parts[j].TextPart? {
            existing := existing + {Normalize(parts[j].text)};
          }
        }
        assert parts[..|parts|] == parts;
      case _ =>
    }
    assert entries[..|entries|] == entries;
  }

  lemma ExistingSnoc(entries: seq<Entry>, a: Addition)
    ensures Existing(entries + [MessageOf(a)]) == Existing(entries) + {Normalize(a.text)}
  {
    assert (entries + [MessageOf(a)])[..|entries|] == entries;
    OneText(a);
  }

  function NormalizedTexts(additions: seq<Addition>): set<string> {
    set a <- additions :: Normalize(a.text)
  }

  lemma {:induction false} ExistingAppend(entries: seq<Entry>, additions: seq<Addition>)
    ensures Existing(entries + Messages(additions)) == Existing(entries) + NormalizedTexts(additions)
    decreases |additions|
  {
    hide Existing, Normalize, MessageOf;
    if additions == [] {
      assert entries + Messages(additions) == entries;
    } else {
      var n := |additions| - 1;
      ExistingAppend(entries, additions[..n]);
      MessagesSnoc(additions, n);
      assert additions[..n + 1] == additions == additions[..n] + [additions[n]];
      assert entries + Messages(additions) == entries + Messages(additions[..n]) + [MessageOf(additions[n])];
      ExistingSnoc(entries + Messages(additions[..n]), additions[n]);
      assert forall a :: a in additions <==> a in additions[..n] || a == additions[n];
    }
  }

  lemma OneText(a: Addition)
    ensures TextsOfEntry(MessageOf(a)) == {Normalize(a.text)}
  {
    var parts := [TextPart(a.text)];
    assert parts[..0] == [] && TextsOfParts(parts[..0]) == {};
  }

  // ---------------------------------------------------------------- What a sync achieves

  lemma SameTexts(a: seq<Addition>, b: seq<Addition>)
    requires multiset(a) == multiset(b)
    ensures TextsOf(a) == TextsOf(b) && NormalizedTexts(a) == NormalizedTexts(b)
  {
    assert forall x :: x in a <==> x in multiset(a);
    assert forall x :: x in b <==> x in multiset(b);
  }

  lemma {:induction false} CollectsOnce(existing: set<string>, lines: seq<Option<LogMessage>>, exclude: Option<string>,
                                        clock: Clock)
    ensures |TextsOf(Collect(existing, lines, exclude, clock))| == |Collect(existing, lines, exclude, clock)|
  {
    hide Eligible, TextOf, TimeOf, TextsOf, Falsy;
    if lines == [] {
      assert TextsOf([]) == {} by { NoTexts(); }
    } else {
      var n := |lines| - 1;
      var before := Collect(existing, lines[..n], exclude, clock);
      CollectsOnce(existing, lines[..n], exclude, clock);
      TimeNeedsDate(lines[n], exclude);
      if Eligible(lines[n], exclude) {
        TextsSnoc(before, Addition(TimeOf(clock, lines[n].value, n), TextOf(lines[n].value)));
      }
    }
  }

  lemma NoTexts()
    ensures TextsOf([]) == {}
  {
  }

  /** A sync appends exactly the texts that the session lacks, each once and in time order. */
  lemma {:induction false} SyncAddsWhatIsMissing(entries: seq<Entry>, lines: seq<Option<LogMessage>>,
                                                 exclude: Option<string>, clock: Clock)
    ensures var appended := Appended(entries, lines, exclude, clock);
      && InTimeOrder(appended)
      && TextsOf(appended) == Wanted(lines, exclude) - Existing(entries)
      && |appended| == |Wanted(lines, exclude) - Existing(entries)|
  {
    hide InTimeOrder, TextsOf, Existing, Wanted, Collect, Sort, NormalizedTexts;
    var missing := Collect(Existing(entries), lines, exclude, clock);
    SortOrders(missing);
    SameTexts(Sort(missing), missing);
    SameSize(Sort(missing), missing);
    CollectsWhatIsMissing(Existing(entries), lines, exclude, clock);
    CollectsOnce(Existing(entries), lines, exclude, clock);
  }

  /** Which additions these are: one for each line that belongs into the session, comes first with its
      text and whose text the session lacks. */
  lemma SyncAddsFirstLines(entries: seq<Entry>, lines: seq<Option<LogMessage>>, exclude: Option<string>, clock: Clock,
                           a: Addition)
    ensures a in Appended(entries, lines, exclude, clock) <==>
            a.text !in Existing(entries) && exists i :: Gives(lines, exclude, clock, i, a)
  {
    var missing := Collect(Existing(entries), lines, exclude, clock);
    CollectsFirstLines(Existing(entries), lines, exclude, clock, a);
    SortOrders(missing);
    assert a in multiset(Sort(missing)) <==> a in multiset(missing);
    hide Gives, Collect, Sort, Existing;
  }

  // ---------------------------------------------------------------- The second sync

  lemma NormalMeans(t: string)
    ensures |Normalize(t)| <= |t|
    ensures Normalize(t) == t <==> !Stamped(t) && !Occurs(t, MARKER)
  {
    CutLeavesNoMarker(t);
  }

  function LengthBound(texts: seq<Addition>): (n: nat)
    ensures forall a <- texts :: |a.text| <= n
  {
    if texts == [] then 0
    else
      var n := LengthBound(texts[..|texts| - 1]);
      assert texts == texts[..|texts| - 1] + [texts[|texts| - 1]];
      if n < |texts[|texts| - 1].text| then |texts[|texts| - 1].text| else n
  }

  /** Texts that are all normal forms of each other are all normal. */
  lemma {:induction false} AllNormal(texts: set<string>, t: string, bound: nat)
    requires t in texts && forall x <- texts :: |x| <= bound
    requires forall x <- texts :: exists y <- texts :: Normalize(y) == x
    ensures Normalize(t) == t
    decreases bound - |t|
  {
    hide Normalize;
    if Normalize(t) != t {
      var longer :| longer in texts && Normalize(longer) == t;
      NormalMeans(longer);
      Shorter(longer);
      AllNormal(texts, longer, bound);
    }
  }

  lemma Shorter(t: string)
    ensures Normalize(t) != t ==> |Normalize(t)| < |t|
  {
  }

  /** Syncing the same log again appends nothing exactly if no text that was missing looks like one
      with a timestamp or an attachment list. */
  lemma SecondSync(entries: seq<Entry>, lines: seq<Option<LogMessage>>, exclude: Option<string>, clock: Clock,
                   clock': Clock)
    ensures Appended(Synced(entries, lines, exclude, clock), lines, exclude, clock') == [] <==>
            forall t <- Wanted(lines, exclude) - Existing(entries) :: !Stamped(t) && !Occurs(t, MARKER)
  {
    hide Existing, Wanted, Normalize, Occurs, Stamped, Collect, Sort, InTimeOrder;
    var appended := Appended(entries, lines, exclude, clock);
    var missing := Wanted(lines, exclude) - Existing(entries);
    var after := Synced(entries, lines, exclude, clock);
    SyncAddsWhatIsMissing(entries, lines, exclude, clock);
    SyncAddsWhatIsMissing(after, lines, exclude, clock');
    ExistingAppend(entries, appended);
    StillMissing(Wanted(lines, exclude), Existing(entries), appended);
    forall t <- missing ensures Normalize(t) == t <==> !Stamped(t) && !Occurs(t, MARKER) {
      NormalMeans(t);
    }
  }

  /** Nothing is missing after the texts were added exactly if they are all normal. */
  lemma StillMissing(wanted: set<string>, existing: set<string>, appended: seq<Addition>)
    requires TextsOf(appended) == wanted - existing
    ensures wanted - (existing + NormalizedTexts(appended)) == {} <==>
            forall t <- wanted - existing :: Normalize(t) == t
  {
    hide Normalize;
    var missing := wanted - existing;
    if wanted - (existing + NormalizedTexts(appended)) == {} {
      forall t <- missing ensures exists u <- missing :: Normalize(u) == t {
        assert t !in wanted - (existing + NormalizedTexts(appended));
        var a :| a in appended && Normalize(a.text) == t;
        assert a.text in TextsOf(appended);
      }
      forall t <- missing ensures Normalize(t) == t {
        assert forall x <- missing :: |x| <= LengthBound(appended) by {
          assert forall x <- missing :: x in TextsOf(appended);
        }
        AllNormal(missing, t, LengthBound(appended));
      }
    }
    if forall t <- missing :: Normalize(t) == t {
      forall t <- missing ensures t in NormalizedTexts(appended) {
        assert t in TextsOf(appended);
      }
    }
  }

  // ---------------------------------------------------------------- Live messages

  /** The local time at which a live message is handled; `offset` is in minutes east of UTC. */
  datatype Moment = Moment(year: nat, month: nat, day: nat, hour: nat, minute: nat, second: nat, offset: int)
  {
    predicate Valid() {
      && 1000 <= year <= 9999 && 1 <= month <= 12 && 1 <= day <= 31
      && hour < 24 && minute < 60 && second < 60 && -1440 < offset < 1440
    }
  }

  function Decimal(n: nat): string {
    var digit := ['0' + (n % 10) as char];
    if n < 10 then digit else Decimal(n / 10) + digit
  }

  /** `padStart(2, "0")`. */
  function Pad(n: nat): string {
    if n < 10 then "0" + Decimal(n) else Decimal(n)
  }

  function Abs(n: int): nat {
    if n < 0 then -n else n
  }

  function DateOf(m: Moment): string {
    Decimal(m.year) + "-" + Pad(m.month) + "-" + Pad(m.day)
  }

  function ClockTime(m: Moment): string {
    Pad(m.hour) + ":" + Pad(m.minute) + ":" + Pad(m.second)
  }

  function OffsetOf(m: Moment): string {
    (if m.offset >= 0 then "+" else "-") + Pad(Abs(m.offset) / 60) + ":" + Pad(Abs(m.offset) % 60)
  }

  function Stamp(m: Moment): string {
    "[" + (DateOf(m) + (" " + (ClockTime(m) + (OffsetOf(m) + "] "))))
  }

  function Lines(paths: seq<string>): string {
    if paths == [] then ""
    else if |paths| == 1 then paths[0]
    else Lines(paths[..|paths| - 1]) + "\n" + paths[|paths| - 1]
  }

  function Attachments(paths: seq<string>): string {
    if paths == [] then "" else MARKER + (Lines(paths) + "\n</slack_attachments>")
  }

  /** The message that is sent to the model: timestamp, name, text, and the paths of attachments
      other than images. */
  function Live(m: Moment, userName: Option<string>, text: string, paths: seq<string>): string {
    Stamp(m) + (Label(Or(userName, "unknown"), text) + Attachments(paths))
  }

  lemma MatchesConcat(a: string, s: string, b: string, t: string)
    requires Matches(a, s) && Matches(b, t)
    ensures Matches(a + b, s + t)
  {
  }

  lemma PadMatches(n: nat)
    requires n < 100
    ensures Matches(Pad(n), "dd")
  {
    if n >= 10 {
      assert Decimal(n) == Decimal(n / 10) + Decimal(n % 10);
    }
  }

  lemma YearMatches(year: nat)
    requires 1000 <= year <= 9999
    ensures Matches(Decimal(year), "dddd")
  {
    var hundreds := year / 100;
    assert hundreds / 10 < 10 && hundreds >= 10;
    assert Decimal(hundreds) == Decimal(hundreds / 10) + Decimal(hundreds % 10);
    assert Decimal(year / 10) == Decimal(hundreds) + Decimal((year / 10) % 10);
    assert Decimal(year) == Decimal(year / 10) + Decimal(year % 10);
  }

  lemma StampMatches(m: Moment)
    requires m.Valid()
    ensures Matches(Stamp(m), TEMPLATE)
  {
    hide Matches, Decimal, Pad;
    DateMatches(m);
    ClockTimeMatches(m);
    OffsetMatches(m);
    Literals();
    MatchesConcat(OffsetOf(m), "sdd:dd", "] ", "] ");
    MatchesConcat(ClockTime(m), "dd:dd:dd", OffsetOf(m) + "] ", "sdd:dd" + "] ");
    MatchesConcat(" ", " ", ClockTime(m) + (OffsetOf(m) + "] "), "dd:dd:dd" + ("sdd:dd" + "] "));
    MatchesConcat(DateOf(m), "dddd-dd-dd", " " + (ClockTime(m) + (OffsetOf(m) + "] ")),
                  " " + ("dd:dd:dd" + ("sdd:dd" + "] ")));
    MatchesConcat("[", "[", DateOf(m) + (" " + (ClockTime(m) + (OffsetOf(m) + "] "))),
                  "dddd-dd-dd" + (" " + ("dd:dd:dd" + ("sdd:dd" + "] "))));
  }

  lemma Literals()
    ensures Matches("] ", "] ") && Matches(" ", " ") && Matches("[", "[")
    ensures "[" + ("dddd-dd-dd" + (" " + ("dd:dd:dd" + ("sdd:dd" + "] ")))) == TEMPLATE
  {
  }

  lemma DateMatches(m: Moment)
    requires m.Valid()
    ensures Matches(DateOf(m), "dddd-dd-dd")
  {
    hide Decimal, Pad;
    YearMatches(m.year);
    PadMatches(m.month);
    PadMatches(m.day);
    assert "dddd" + "-" + "dd" + "-" + "dd" == "dddd-dd-dd";
    MatchesConcat(Decimal(m.year), "dddd", "-", "-");
    MatchesConcat(Decimal(m.year) + "-", "dddd" + "-", Pad(m.month), "dd");
    MatchesConcat(Decimal(m.year) + "-" + Pad(m.month), "dddd" + "-" + "dd", "-", "-");
    MatchesConcat(Decimal(m.year) + "-" + Pad(m.month) + "-", "dddd" + "-" + "dd" + "-", Pad(m.day), "dd");
  }

  lemma ClockTimeMatches(m: Moment)
    requires m.Valid()
    ensures Matches(ClockTime(m), "dd:dd:dd")
  {
    hide Decimal, Pad;
    PadMatches(m.hour);
    PadMatches(m.minute);
    PadMatches(m.second);
    assert "dd" + ":" + "dd" + ":" + "dd" == "dd:dd:dd";
    MatchesConcat(Pad(m.hour), "dd", ":", ":");
    MatchesConcat(Pad(m.hour) + ":", "dd" + ":", Pad(m.minute), "dd");
    MatchesConcat(Pad(m.hour) + ":" + Pad(m.minute), "dd" + ":" + "dd", ":", ":");
    MatchesConcat(Pad(m.hour) + ":" + Pad(m.minute) + ":", "dd" + ":" + "dd" + ":", Pad(m.second), "dd");
  }

  lemma OffsetMatches(m: Moment)
    requires m.Valid()
    ensures Matches(OffsetOf(m), "sdd:dd")
  {
    hide Decimal, Pad;
    var sign := if m.offset >= 0 then "+" else "-";
    PadMatches(Abs(m.offset) / 60);
    PadMatches(Abs(m.offset) % 60);
    assert "s" + "dd" + ":" + "dd" == "sdd:dd";
    MatchesConcat(sign, "s", Pad(Abs(m.offset) / 60), "dd");
    MatchesConcat(sign + Pad(Abs(m.offset) / 60), "s" + "dd", ":", ":");
    MatchesConcat(sign + Pad(Abs(m.offset) / 60) + ":", "s" + "dd" + ":", Pad(Abs(m.offset) % 60), "dd");
  }

  /** The marker starts with two line feeds and has none next to each other later on. */
  lemma MarkerShape()
    ensures |MARKER| == 22 && MARKER[0] == MARKER[1] == '\n'
    ensures forall i :: 1 <= i < 21 ==> !(MARKER[i] == '\n' && MARKER[i + 1] == '\n')
  {
    assert MARKER[2..21] == "<slack_attachments>";
    assert forall i :: 0 <= i < 19 ==> "<slack_attachments>"[i] != '\n';
    assert forall i :: 2 <= i < 21 ==> MARKER[i] == MARKER[2..21][i - 2];
  }

  /** An occurrence that starts before the marker ends at its first line feed at the latest. */
  lemma OccursBefore(said: string, rest: string, j: nat)
    requires j < |said|
    ensures OccursAt(said + (MARKER + rest), MARKER, j) <==> OccursAt(said + "\n", MARKER, j)
  {
    MarkerShape();
    var s, n := said + (MARKER + rest), |said|;
    assert s[..n + 1] == said + "\n";
    assert s[n] == '\n' && s[n + 1] == '\n';
    if OccursAt(s, MARKER, j) {
      var found := s[j..j + 22];
      if j + 22 > n + 1 {
        assert false;
      }
      assert (said + "\n")[j..j + 22] == found;
    }
    if OccursAt(said + "\n", MARKER, j) {
      assert s[j..j + 22] == (said + "\n")[j..j + 22];
    }
  }

  /** Cutting gives the label back exactly if the marker does not occur earlier. */
  lemma CutGivesLabel(said: string, paths: seq<string>)
    ensures Cut(said + Attachments(paths)) == said <==>
            !Occurs(said + (if paths == [] then "" else "\n"), MARKER)
  {
    if paths == [] {
      assert said + "" == said;
      CutLeavesNoMarker(said);
    } else {
      var rest := Lines(paths) + "\n</slack_attachments>";
      var s := said + (MARKER + rest);
      var i := IndexOf(s, MARKER, 0);
      assert s[|said|..|said| + |MARKER|] == MARKER;
      assert OccursAt(s, MARKER, |said|);
      assert s[..i.value] == said <==> i.value == |said|;
      if i.value < |said| {
        OccursBefore(said, rest, i.value);
      } else {
        forall j: nat ensures !OccursAt(said + "\n", MARKER, j) {
          MarkerShape();
          if j < |said| {
            OccursBefore(said, rest, j);
          }
        }
      }
    }
  }

  /** Normalizing undoes the decoration of a live message exactly if the marker of the attachment
      list does not occur in it, or across its end when attachments follow. */
  lemma {:induction false} NormalizeUndoesDecoration(m: Moment, userName: Option<string>, text: string,
                                                     paths: seq<string>)
    requires m.Valid()
    ensures Normalize(Live(m, userName, text, paths)) == Label(Or(userName, "unknown"), text) <==>
            !Occurs(Label(Or(userName, "unknown"), text) + (if paths == [] then "" else "\n"), MARKER)
  {
    hide Cut, Label, Attachments, Matches, Occurs, Stamp, Or;
    StampMatches(m);
    StampIsDropped(Stamp(m), Label(Or(userName, "unknown"), text) + Attachments(paths));
    CutGivesLabel(Label(Or(userName, "unknown"), text), paths);
  }

  lemma StampIsDropped(stamp: string, rest: string)
    requires Matches(stamp, TEMPLATE)
    ensures Normalize(stamp + rest) == Cut(rest)
  {
    assert (stamp + rest)[..|TEMPLATE|] == stamp && (stamp + rest)[|TEMPLATE|..] == rest;
  }

  /** Without attachments the text may end in the marker less its last line feed; with them, it is
      taken for the start of the list, so that a text without the marker does not come back. */
  lemma {:induction false} TextAcrossTheMarker(m: Moment, path: string)
    requires m.Valid()
    ensures var text := "\n\n<slack_attachments>";
      && !Occurs(text, MARKER)
      && Normalize(Live(m, Some("ann"), text, [path])) != Label("ann", text)
  {
    var text, name := "\n\n<slack_attachments>", Some("ann");
    var said := Label("ann", text);
    assert text + "\n" == MARKER;
    assert (said + "\n")[|said| - |text|..] == text + "\n";
    assert OccursAt(said + "\n", MARKER, |said| - |text|);
    NormalizeUndoesDecoration(m, name, text, [path]);
    forall i: nat ensures !OccursAt(text, MARKER, i) {
      assert |text| < |MARKER|;
    }
  }

  lemma CutIsPrefix(said: string, paths: seq<string>)
    ensures Cut(said + Attachments(paths)) <= said
  {
    if paths == [] {
      assert said + "" == said;
    } else {
      var rest := Lines(paths) + "\n</slack_attachments>";
      var s := said + (MARKER + rest);
      assert s[|said|..|said| + |MARKER|] == MARKER;
      assert OccursAt(s, MARKER, |said|);
    }
  }

  lemma UnknownIsNoOther(name: string, text: string)
    requires Label(name, text) <= Label("unknown", text)
    ensures name == "unknown"
  {
    var a, b := Label(name, text), Label("unknown", text);
    assert |a| == |name| + |text| + 4 && |b| == 7 + |text| + 4;
    assert a[1..|name| + 1] == name && b[1..8] == "unknown";
    assert a[|name| + 1] == ']' == b[|name| + 1];
    assert forall k :: 1 <= k < 8 ==> b[k] == "unknown"[k - 1] != ']';
    if |name| >= 7 {
      assert name == b[1..8];
    }
  }

  /** A message that was handled live is recognized when the log is synced exactly if its name was
      known, or as good as known, and the marker does not occur in its text as above. */
  lemma LiveMessageIsRecognized(m: Moment, logged: LogMessage, paths: seq<string>)
    requires m.Valid()
    ensures var text := Or(logged.text, "");
      Normalize(Live(m, logged.userName, text, paths)) == TextOf(logged) <==>
        && (!Falsy(logged.userName) || Or(logged.user, "unknown") == "unknown")
        && !Occurs(TextOf(logged) + (if paths == [] then "" else "\n"), MARKER)
  {
    hide Cut, Label, Attachments, Matches, Occurs, Stamp;
    var text, name := Or(logged.text, ""), Or(logged.userName, "unknown");
    StampMatches(m);
    StampIsDropped(Stamp(m), Label(name, text) + Attachments(paths));
    NormalizeUndoesDecoration(m, logged.userName, text, paths);
    CutIsPrefix(Label(name, text), paths);
    if Falsy(logged.userName) && Cut(Label(name, text) + Attachments(paths)) == TextOf(logged) {
      UnknownIsNoOther(Or(logged.user, "unknown"), text);
    }
  }
}
