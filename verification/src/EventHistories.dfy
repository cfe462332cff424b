/** What can happen to event files over the life of a watcher, and what that says about runs. */
module EventHistories {
  import opened Wrappers

  /** The longest delay that the runtime's timers keep; beyond it, they fire after a millisecond. */
  const MAX_DELAY := 2147483647

  datatype Event =
    | Immediate(channelId: string, text: string)
    | OneShot(channelId: string, text: string, at: string)
    | Periodic(channelId: string, text: string, schedule: string, timezone: string)

  /** The delay that a timer really waits; None is a delay that is not a number. */
  function Wait(delay: Option<int>): int {
    if delay.Some? && 1 <= delay.value <= MAX_DELAY then delay.value else 1
  }

  /** When a one-shot event for time `at` is run that is loaded at `now`. */
  function Due(at: Option<int>, now: int): int {
    now + Wait(if at.Some? then Some(at.value - now) else None)
  }

  /** Something armed to run, not before `due`; `at` is the time of a one-shot event, if valid. */
  datatype Job = Job(filename: string, event: Event, at: Option<int>, due: int)

  /** `Began` and `ReadDone` are the two ends of reading a file. A job is loaded under a number that
      is new; the same file may be loaded again and again. */
  datatype Entry =
    | Started(existing: set<string>)
    | Began(filename: string)
    | ReadDone(filename: string)
    | Loaded(version: nat, job: Job, now: int)
    | Ran(version: nat, now: int, enqueued: bool)
    | Cancelled(filename: string)
    | Deleted(filename: string)
    | Unlinked(filename: string)
    | Stopped

  /** `justRead` is the file that has been read and not yet dealt with, `clock` the last time seen. */
  datatype Status = Status(
    armed: map<nat, Job>, loads: nat, reading: set<string>, justRead: Option<string>, watching: bool,
    clock: Option<int>)

  const NEW := Status(map[], 0, {}, None, false, None)

  function Without(armed: map<nat, Job>, filename: string): map<nat, Job> {
    map v <- armed | armed[v].filename != filename :: armed[v]
  }

  predicate InTime(clock: Option<int>, now: int) {
    clock.Some? ==> clock.value <= now
  }

  /** A one-shot event is armed for its time, and only if that is not past. */
  predicate Timed(job: Job, now: int) {
    if job.event.OneShot? then job.due == Due(job.at, now) && (job.at.Some? ==> now < job.at.value)
    else job.due == now
  }

  /** The law of the watcher: files are read one at a time each and only begun while watching; only a
      file just read is loaded, and only when nothing is armed for it; only what is armed runs, and
      not before it is due; time does not go back. */
  function Next(s: Status, entry: Entry): Option<Status> {
    var t := s.(justRead := None);
    match entry
    case Started(files) =>
      if !s.watching && files !! s.reading then Some(t.(watching := true, reading := s.reading + files)) else None
    case Began(f) => if s.watching && f !in s.reading then Some(t.(reading := s.reading + {f})) else None
    case ReadDone(f) => if f in s.reading then Some(s.(justRead := Some(f), reading := s.reading - {f})) else None
    case Loaded(v, job, now) =>
      if && v == s.loads && s.justRead == Some(job.filename) && NothingFor(s.armed, job.filename)
         && InTime(s.clock, now) && Timed(job, now)
      then Some(t.(armed := s.armed[v := job], loads := s.loads + 1, clock := Some(now)))
      else None
    case Ran(v, now, _) =>
      if v in s.armed && s.armed[v].due <= now && InTime(s.clock, now)
      then Some(t.(armed := if s.armed[v].event.Periodic? then s.armed else s.armed - {v}, clock := Some(now)))
      else None
    case Cancelled(f) => Some(t.(armed := Without(s.armed, f)))
    case Deleted(f) => Some(t.(armed := Without(s.armed, f)))
    case Unlinked(_) => Some(t)
    case Stopped => Some(t.(armed := map[], watching := false))
  }

  predicate NothingFor(armed: map<nat, Job>, filename: string) {
    forall v <- armed :: armed[v].filename != filename
  }

  function History(log: seq<Entry>): Option<Status> {
    if log == [] then Some(NEW)
    else
      match History(log[..|log| - 1])
      case None => None
      case Some(s) => Next(s, log[|log| - 1])
  }

  predicate Lawful(log: seq<Entry>) {
    History(log).Some?
  }

  lemma HistorySnoc(log: seq<Entry>, entry: Entry)
    requires Lawful(log)
    ensures History(log + [entry]) == Next(History(log).value, entry)
  {
    assert (log + [entry])[..|log|] == log;
  }

  // ---------------------------------------------------------------- Moments of a history

  lemma {:induction false} LawfulUpTo(log: seq<Entry>, i: nat)
    requires Lawful(log) && i <= |log|
    ensures Lawful(log[..i])
  {
    if i == |log| {
      assert log[..i] == log;
    } else {
      LawfulUpTo(log[..|log| - 1], i);
      assert log[..|log| - 1][..i] == log[..i];
    }
  }

  /** The status before the entry at `i`. */
  ghost function At(log: seq<Entry>, i: nat): Status
    requires Lawful(log) && i <= |log|
  {
    LawfulUpTo(log, i);
    History(log[..i]).value
  }

  lemma Step(log: seq<Entry>, i: nat)
    requires Lawful(log) && i < |log|
    ensures Next(At(log, i), log[i]) == Some(At(log, i + 1))
  {
    LawfulUpTo(log, i + 1);
    LawfulUpTo(log, i);
    assert log[..i + 1][..i] == log[..i];
  }

  /** Once a version was loaded, it stays disarmed when it is, and is armed as it was loaded. */
  lemma {:induction false} AfterLoad(log: seq<Entry>, k: nat, j: nat)
    requires Lawful(log) && k < j <= |log| && log[k].Loaded?
    ensures log[k].version < At(log, j).loads
    ensures log[k].version in At(log, j).armed ==> At(log, j).armed[log[k].version] == log[k].job
  {
    hide At;
    Step(log, j - 1);
    if k < j - 1 {
      AfterLoad(log, k, j - 1);
    }
  }

  lemma {:induction false} StaysDisarmed(log: seq<Entry>, i: nat, j: nat, version: nat)
    requires Lawful(log) && i <= j <= |log|
    requires version < At(log, i).loads && version !in At(log, i).armed
    ensures version < At(log, j).loads && version !in At(log, j).armed
  {
    hide At;
    if i < j {
      StaysDisarmed(log, i, j - 1, version);
      Step(log, j - 1);
    }
  }

  /** What is armed has been loaded. */
  lemma {:induction false} WasLoaded(log: seq<Entry>, j: nat, version: nat) returns (k: nat)
    requires Lawful(log) && j <= |log| && version in At(log, j).armed
    ensures k < j && log[k].Loaded? && log[k].version == version && log[k].job == At(log, j).armed[version]
  {
    hide At;
    NewAtFirst(log);
    k := 0;
    if j > 0 {
      Step(log, j - 1);
      if log[j - 1].Loaded? && log[j - 1].version == version {
        k := j - 1;
      } else {
        k := WasLoaded(log, j - 1, version);
      }
    }
  }

  lemma NewAtFirst(log: seq<Entry>)
    requires Lawful(log)
    ensures At(log, 0) == NEW
  {
  }

  /** A number is given to one load only. */
  lemma LoadedOnce(log: seq<Entry>, k: nat, k': nat)
    requires Lawful(log) && k < |log| && k' < |log| && log[k].Loaded? && log[k'].Loaded?
    requires log[k].version == log[k'].version
    ensures k == k'
  {
    var a, b := if k < k' then k else k', if k < k' then k' else k;
    if a < b {
      AfterLoad(log, a, b);
      Step(log, b);
    }
  }

  lemma RunIsOfLoad(log: seq<Entry>, k: nat, i: nat)
    requires Lawful(log) && k < |log| && i < |log| && log[k].Loaded? && log[i].Ran?
    requires log[k].version == log[i].version
    ensures k < i && log[i].version in At(log, i).armed && At(log, i).armed[log[i].version] == log[k].job
    ensures log[k].job.due <= log[i].now
  {
    Step(log, i);
    var k' := WasLoaded(log, i, log[i].version);
    LoadedOnce(log, k, k');
  }

  lemma {:induction false} TimePasses(log: seq<Entry>, i: nat, j: nat)
    requires Lawful(log) && i <= j <= |log|
    ensures At(log, i).clock.Some? ==> At(log, j).clock.Some? && At(log, i).clock.value <= At(log, j).clock.value
  {
    hide At;
    if i < j {
      TimePasses(log, i, j - 1);
      Step(log, j - 1);
    }
  }

  // ---------------------------------------------------------------- At most once, never early

  /** A load of an immediate or one-shot event runs at most once. */
  lemma LoadRunsOnce(log: seq<Entry>, k: nat, i: nat, j: nat)
    requires Lawful(log) && k < |log| && i < j < |log| && log[k].Loaded? && log[i].Ran? && log[j].Ran?
    requires log[k].version == log[i].version && !log[k].job.event.Periodic?
    ensures log[j].version != log[i].version
  {
    if log[j].version == log[i].version {
      RunIsOfLoad(log, k, i);
      RunIsOfLoad(log, k, j);
      Step(log, i);
      AfterLoad(log, k, i + 1);
      StaysDisarmed(log, i + 1, j, log[k].version);
    }
  }

  /** Nothing runs before it is due. */
  lemma NeverEarly(log: seq<Entry>, k: nat, i: nat)
    requires Lawful(log) && k < |log| && i < |log| && log[k].Loaded? && log[i].Ran?
    requires log[k].version == log[i].version
    ensures k < i && log[k].job.due <= log[i].now
  {
    RunIsOfLoad(log, k, i);
  }

  /** A one-shot event in the future waits for its time exactly if that is at most MAX_DELAY away;
      one further off, or without a valid time, runs after a millisecond. */
  lemma OnTimeExactlyWithinRange(at: int, now: int)
    requires at > now
    ensures Due(Some(at), now) >= at <==> at - now <= MAX_DELAY
    ensures Due(Some(at), now) >= at ==> Due(Some(at), now) == at
    ensures at - now > MAX_DELAY ==> Due(Some(at), now) == Due(None, now) == now + 1
  {
  }

  /** The load at `k` is of a one-shot event that its timer can wait for. */
  predicate WithinRange(log: seq<Entry>, k: nat) {
    && k < |log| && log[k].Loaded? && log[k].job.event.OneShot? && log[k].job.at.Some?
    && log[k].job.at.value - log[k].now <= MAX_DELAY
  }

  /** A one-shot event within range runs at its time or later. */
  lemma NotBeforeItsTime(log: seq<Entry>, k: nat, i: nat)
    requires Lawful(log) && WithinRange(log, k) && i < |log| && log[i].Ran? && log[i].version == log[k].version
    ensures log[k].job.at.value <= log[i].now
  {
    RunIsOfLoad(log, k, i);
    Step(log, k);
    OnTimeExactlyWithinRange(log[k].job.at.value, log[k].now);
  }

  /** A one-shot event within range that is loaded again for the same time has not run and never
      will: a second load comes after the first was cancelled, and before the time. */
  lemma LoadedAgainNeverRan(log: seq<Entry>, k: nat, k': nat, i: nat)
    requires Lawful(log) && WithinRange(log, k) && k < k' < |log| && i < |log|
    requires log[k'].Loaded? && log[k'].job.event.OneShot?
    requires log[k'].job.filename == log[k].job.filename && log[k'].job.at == log[k].job.at
    ensures !(log[i].Ran? && log[i].version == log[k].version)
  {
    if log[i].Ran? && log[i].version == log[k].version {
      RunIsOfLoad(log, k, i);
      NotBeforeItsTime(log, k, i);
      Step(log, k');
      AfterLoad(log, k, k');
      if i < k' {
        Step(log, i);
        TimePasses(log, i + 1, k');
      } else {
        StaysDisarmed(log, k', i, log[k].version);
      }
    }
  }

  /** However often a file is loaded for the same time, a one-shot event within range runs at most
      once. */
  lemma OncePerVersion(log: seq<Entry>, k: nat, i: nat, k': nat, i': nat)
    requires Lawful(log) && WithinRange(log, k) && k <= k' < |log| && i < |log| && i' < |log|
    requires log[k'].Loaded? && log[k'].job.event.OneShot?
    requires log[k'].job.filename == log[k].job.filename && log[k'].job.at == log[k].job.at
    requires log[i].Ran? && log[i].version == log[k].version
    requires log[i'].Ran? && log[i'].version == log[k'].version
    ensures i == i' && k == k'
  {
    if k < k' {
      LoadedAgainNeverRan(log, k, k', i);
    } else if i != i' {
      LoadRunsOnce(log, k, if i < i' then i else i', if i < i' then i' else i);
    }
  }

  lemma Extend(log: seq<Entry>, s: Status, entry: Entry) returns (log': seq<Entry>, s': Status)
    requires History(log) == Some(s) && Next(s, entry).Some?
    ensures log' == log + [entry] && History(log') == Some(s') == Next(s, entry)
  {
    HistorySnoc(log, entry);
    log', s' := log + [entry], Next(s, entry).value;
  }

  /** A history in which the same one-shot event for time `at` of file `f`, first loaded at `now`,
      runs for two loads. */
  predicate RunsTwice(log: seq<Entry>, k: nat, i: nat, k': nat, i': nat, f: string, at: int, now: int) {
    && Lawful(log) && k < k' < |log| && i < |log| && i' < |log|
    && log[k].Loaded? && log[k].job.event.OneShot? && log[k].now == now
    && log[k'].Loaded? && log[k'].job.event == log[k].job.event
    && log[k].job.at == log[k'].job.at == Some(at) && log[k].job.filename == log[k'].job.filename == f
    && log[i].Ran? && log[i].version == log[k].version && log[i'].Ran? && log[i'].version == log[k'].version
  }

  /** Beyond the range the bound fails: the event runs too early, and if its file is still there, as
      when it could not be removed, it is loaded for the same time and runs again. */
  lemma FarOffRunsTwice(f: string, event: Event, at: int, now: int)
    returns (log: seq<Entry>, k: nat, i: nat, k': nat, i': nat)
    requires event.OneShot? && at - now > MAX_DELAY
    ensures RunsTwice(log, k, i, k', i', f, at, now) && log[k].job.event == event && log[i].now == now + 1 < at
  {
    hide History;
    var first, second := Job(f, event, Some(at), now + 1), Job(f, event, Some(at), Due(Some(at), now + 2));
    var s := NEW;
    log := [];
    Blank();
    log, s := Extend(log, s, Started({f}));
    log, s := Extend(log, s, ReadDone(f));
    log, s := Extend(log, s, Loaded(0, first, now));
    log, s := Extend(log, s, Ran(0, now + 1, true));
    log, s := Extend(log, s, Unlinked(f));
    log, s := Extend(log, s, Began(f));
    log, s := Extend(log, s, ReadDone(f));
    log, s := Extend(log, s, Loaded(1, second, now + 2));
    log, s := Extend(log, s, Ran(1, second.due, true));
    log, s := Extend(log, s, Unlinked(f));
    k, i, k', i' := 2, 3, 7, 8;
  }

  /** A one-shot event in the future that is loaded at `now` can run twice exactly if its time is
      further off than the range. */
  lemma RunsTwiceExactlyBeyondRange(f: string, event: Event, at: int, now: int)
    requires event.OneShot? && at > now
    ensures (exists log, k, i, k', i' :: RunsTwice(log, k, i, k', i', f, at, now)) <==> at - now > MAX_DELAY
  {
    if at - now > MAX_DELAY {
      var log, k, i, k', i' := FarOffRunsTwice(f, event, at, now);
    }
    if log, k, i, k', i' :| RunsTwice(log, k, i, k', i', f, at, now) {
      if at - now <= MAX_DELAY {
        OncePerVersion(log, k, i, k', i');
      }
    }
  }

  lemma Blank()
    ensures History([]) == Some(NEW)
  {
  }

  // ---------------------------------------------------------------- After a stop or a deletion

  /** Nothing that was loaded before runs after its file was found deleted or modified, or after the
      watcher was stopped. */
  lemma NeverAfterRemoval(log: seq<Entry>, k: nat, i: nat, j: nat)
    requires Lawful(log) && k < i < j < |log| && log[k].Loaded?
    requires log[i].Stopped? || log[i] == Cancelled(log[k].job.filename) || log[i] == Deleted(log[k].job.filename)
    ensures !(log[j].Ran? && log[j].version == log[k].version)
  {
    Step(log, i);
    AfterLoad(log, k, i);
    AfterLoad(log, k, i + 1);
    StaysDisarmed(log, i + 1, j, log[k].version);
    Step(log, j);
  }

  predicate Begins(entry: Entry, f: string) {
    entry == Began(f) || (entry.Started? && f in entry.existing)
  }

  /** No reading of `f` begins between `i` and `j`. */
  predicate NotBegun(log: seq<Entry>, i: nat, j: nat, f: string)
    requires j <= |log|
  {
    forall m :: i < m < j ==> !Begins(log[m], f)
  }

  predicate Removes(entry: Entry, f: string) {
    entry.Stopped? || entry == Deleted(f)
  }

  /** What is left of `f` after a removal comes from a reading that was under way, and was loaded
      after the removal. */
  predicate LeftOver(s: Status, f: string, then_: Status) {
    && (f in then_.reading || then_.justRead == Some(f) ==> f in s.reading)
    && (forall v <- then_.armed :: then_.armed[v].filename == f ==> v >= s.loads && f in s.reading)
    && s.loads <= then_.loads
  }

  lemma {:induction false} LeftOverFrom(log: seq<Entry>, i: nat, j: nat, f: string)
    requires Lawful(log) && i < j <= |log| && Removes(log[i], f) && NotBegun(log, i, j, f)
    ensures LeftOver(At(log, i), f, At(log, j))
  {
    hide At;
    Step(log, j - 1);
    if j - 1 > i {
      LeftOverFrom(log, i, j - 1, f);
      assert !Begins(log[j - 1], f);
    }
  }

  /** The file that a run is for. */
  ghost predicate RunsFor(log: seq<Entry>, j: nat, f: string)
    requires Lawful(log)
  {
    && j < |log| && log[j].Ran? && log[j].version in At(log, j).armed
    && At(log, j).armed[log[j].version].filename == f
  }

  /** After a stop, or after `f` was found deleted, and until a reading of `f` begins again, `f` is
      loaded or run only if it was being read at the removal, and what is run was loaded since. */
  lemma AfterRemoval(log: seq<Entry>, i: nat, j: nat, f: string)
    requires Lawful(log) && i < j < |log| && Removes(log[i], f) && NotBegun(log, i, j, f)
    ensures log[j].Loaded? && log[j].job.filename == f ==> f in At(log, i).reading
    ensures RunsFor(log, j, f) ==>
              f in At(log, i).reading &&
              exists k :: i < k < j && log[k].Loaded? && log[k].version == log[j].version && log[k].job.filename == f
  {
    LeftOverFrom(log, i, j, f);
    Step(log, j);
    if RunsFor(log, j, f) {
      var k := WasLoaded(log, j, log[j].version);
      Step(log, i);
      if k < i {
        AfterLoad(log, k, i);
      }
    }
  }

  lemma {:induction false} NotWatching(log: seq<Entry>, i: nat, j: nat)
    requires Lawful(log) && i < j <= |log| && log[i].Stopped?
    requires forall m :: i < m < j ==> !log[m].Started?
    ensures !At(log, j).watching
    ensures forall m :: i < m < j ==> !log[m].Began?
  {
    hide At;
    Step(log, j - 1);
    if j - 1 > i {
      NotWatching(log, i, j - 1);
    }
  }

  /** After a stop and until the next start, no reading begins, and only files that were being read at
      the stop are loaded or run: none, if none was. */
  lemma AfterStop(log: seq<Entry>, i: nat, j: nat)
    requires Lawful(log) && i < j < |log| && log[i].Stopped?
    requires forall m :: i < m <= j ==> !log[m].Started?
    ensures !log[j].Began?
    ensures log[j].Loaded? ==> log[j].job.filename in At(log, i).reading
    ensures log[j].Ran? ==>
              log[j].version in At(log, j).armed && At(log, j).armed[log[j].version].filename in At(log, i).reading
  {
    NotWatching(log, i, j + 1);
    Step(log, j);
    if log[j].Loaded? {
      AfterRemoval(log, i, j, log[j].job.filename);
    }
    if log[j].Ran? {
      AfterRemoval(log, i, j, At(log, j).armed[log[j].version].filename);
    }
  }

  /** `tail` can follow, and runs `f` although it begins no reading of it. */
  ghost predicate RunsLater(log: seq<Entry>, tail: seq<Entry>, f: string) {
    && Lawful(log + tail)
    && (forall e <- tail :: !Begins(e, f))
    && exists j :: |log| <= j && RunsFor(log + tail, j, f)
  }

  /** One run of an immediate event whose file is being read. */
  function Straggler(s: Status, f: string): seq<Entry> {
    var now := if s.clock.Some? then s.clock.value else 0;
    [ReadDone(f), Loaded(s.loads, Job(f, Immediate("channel", "text"), None, now), now), Ran(s.loads, now, true)]
  }

  lemma StragglerRuns(log: seq<Entry>, f: string)
    requires Lawful(log) && f in History(log).value.reading && NothingFor(History(log).value.armed, f)
    ensures RunsLater(log, Straggler(History(log).value, f), f)
  {
    var s := History(log).value;
    var tail := Straggler(s, f);
    var l1 := log + [tail[0]];
    var l2 := l1 + [tail[1]];
    var l3 := l2 + [tail[2]];
    HistorySnoc(log, tail[0]);
    HistorySnoc(l1, tail[1]);
    HistorySnoc(l2, tail[2]);
    assert l3 == log + tail && l3[..|log| + 2] == l2;
    assert RunsFor(log + tail, |log| + 2, f);
  }

  /** A stop or a deletion keeps a file from being run, until its reading begins again, exactly if the
      file is not being read at that moment. */
  lemma RemovalIsFinalExactly(log: seq<Entry>, removal: Entry, f: string)
    requires Lawful(log) && Removes(removal, f)
    ensures Lawful(log + [removal])
    ensures f in History(log).value.reading <==> exists tail :: RunsLater(log + [removal], tail, f)
  {
    HistorySnoc(log, removal);
    var after := log + [removal];
    if f in History(log).value.reading {
      StragglerRuns(after, f);
    }
    if tail :| RunsLater(after, tail, f) {
      var all := after + tail;
      var j :| |after| <= j && RunsFor(all, j, f);
      forall m | |log| < m < j ensures !Begins(all[m], f) {
        assert all[m] in tail;
      }
      assert all[|log|] == removal && all[..|log|] == log;
      AfterRemoval(all, |log|, j, f);
    }
  }
}
