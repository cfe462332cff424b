/** Event files: an immediate event runs once, a one-shot at its time, a periodic one on a schedule. */
module EventsWatchers {
  import opened EventHistories
  import opened Wrappers

  const MAX_RETRIES := 3

  /** The parts of a JSON object that the parser looks at. */
  datatype Fields = Fields(
    kind: Option<string>, channelId: Option<string>, text: Option<string>,
    at: Option<string>, schedule: Option<string>, timezone: Option<string>)

  predicate Missing(field: Option<string>) {
    field.None? || field.value == ""
  }

  /** The event in a file; None stands for the errors thrown for missing fields and unknown types. */
  function ParseEvent(data: Fields): Option<Event> {
    if Missing(data.kind) || Missing(data.channelId) || Missing(data.text) then None
    else if data.kind.value == "immediate" then Some(Immediate(data.channelId.value, data.text.value))
    else if data.kind.value == "one-shot" && !Missing(data.at) then
      Some(OneShot(data.channelId.value, data.text.value, data.at.value))
    else if data.kind.value == "periodic" && !Missing(data.schedule) && !Missing(data.timezone) then
      Some(Periodic(data.channelId.value, data.text.value, data.schedule.value, data.timezone.value))
    else None
  }

  /** What the watcher and the runtime hold is what the history has left. */
  ghost predicate Agrees(log: seq<Entry>, armed: map<nat, Job>, loads: nat, reading: set<string>, watching: bool) {
    && Lawful(log)
    && History(log).value.armed == armed && History(log).value.loads == loads
    && History(log).value.reading == reading && History(log).value.watching == watching
  }

  /** Every file has at most one callback, held in the table for its kind of event. */
  ghost predicate Tables(timers: map<string, nat>, crons: map<string, nat>, armed: map<nat, Job>) {
    && timers.Keys !! crons.Keys
    && (forall f <- timers :: timers[f] in armed && armed[timers[f]].filename == f && armed[timers[f]].event.OneShot?)
    && (forall f <- crons :: crons[f] in armed && armed[crons[f]].filename == f && armed[crons[f]].event.Periodic?)
    && forall v <- armed :: Held(timers, crons, armed, v)
  }

  ghost predicate Held(timers: map<string, nat>, crons: map<string, nat>, armed: map<nat, Job>, v: nat)
    requires v in armed
  {
    var f := armed[v].filename;
    match armed[v].event
    case Immediate(_, _) => false
    case OneShot(_, _, _) => f in timers && timers[f] == v
    case Periodic(_, _, _, _) => f in crons && crons[f] == v
  }

  lemma OnlyItsOwn(timers: map<string, nat>, crons: map<string, nat>, armed: map<nat, Job>, f: string)
    requires Tables(timers, crons, armed)
    ensures f in timers ==> f !in crons && Without(armed, f) == armed - {timers[f]}
    ensures f in crons ==> Without(armed, f) == armed - {crons[f]}
    ensures f !in timers && f !in crons ==> Without(armed, f) == armed
    ensures Tables(timers - {f}, crons - {f}, Without(armed, f))
  {
    assert forall v <- armed :: Held(timers, crons, armed, v);
    forall v <- Without(armed, f) ensures Held(timers - {f}, crons - {f}, Without(armed, f), v) {
      assert Held(timers, crons, armed, v);
    }
  }

  lemma AllInTables(timers: map<string, nat>, crons: map<string, nat>, armed: map<nat, Job>)
    requires Tables(timers, crons, armed)
    ensures armed - timers.Values - crons.Values == map[]
    ensures Tables(map[], map[], map[])
  {
    forall v <- armed ensures v in timers.Values || v in crons.Values {
      assert Held(timers, crons, armed, v);
    }
  }

  lemma AllChanges(debounceTimers: map<string, nat>, changes: map<nat, string>, next: nat)
    requires Debounces(debounceTimers, changes, next)
    ensures changes - debounceTimers.Values == map[]
    ensures Debounces(map[], map[], next)
  {
  }

  /** A file is debounced by at most one timer. */
  ghost predicate Debounces(debounceTimers: map<string, nat>, changes: map<nat, string>, next: nat) {
    && (forall f <- debounceTimers :: debounceTimers[f] in changes && changes[debounceTimers[f]] == f)
    && (forall h <- changes :: h < next && changes[h] in debounceTimers && debounceTimers[changes[h]] == h)
  }

  class EventsWatcher {
    const startTime: int
    const json: string -> Option<Fields>
    const timeOf: string -> Option<int>
    const cronAccepts: (string, string) -> bool

    var timers: map<string, nat>
    var crons: map<string, nat>
    var debounceTimers: map<string, nat>
    var knownFiles: set<string>
    var watching: bool

    /** What the runtime will call: scheduled jobs and debounced changes. */
    var armed: map<nat, Job>
    var changes: map<nat, string>
    var nextVersion: nat
    var nextChange: nat

    /** The files whose content is being read, and all that has happened. */
    ghost var handling: set<string>
    ghost var log: seq<Entry>

    ghost predicate Valid()
      reads this
    {
      && Tables(timers, crons, armed)
      && timers.Keys + crons.Keys <= knownFiles
      && handling !! timers.Keys + crons.Keys
      && Debounces(debounceTimers, changes, nextChange)
      && (!watching ==> changes == map[])
      && Agrees(log, armed, nextVersion, handling, watching)
    }

    /** The clock does not go back. */
    ghost predicate NotBefore(now: int)
      reads this
    {
      Lawful(log) && InTime(History(log).value.clock, now)
    }

    /** The file is the one that has just been read. */
    ghost predicate JustRead(filename: string)
      reads this
    {
      Lawful(log) && History(log).value.justRead == Some(filename)
    }

    constructor (startTime: int, json: string -> Option<Fields>, timeOf: string -> Option<int>,
                 cronAccepts: (string, string) -> bool)
      ensures Valid() && this.startTime == startTime && this.json == json && this.timeOf == timeOf
      ensures this.cronAccepts == cronAccepts && log == [] && armed == map[] && changes == map[]
      ensures !watching && handling == {} && knownFiles == {} && timers == map[] && crons == map[]
    {
      this.startTime, this.json, this.timeOf, this.cronAccepts := startTime, json, timeOf, cronAccepts;
      timers, crons, debounceTimers, knownFiles, watching := map[], map[], map[], {}, false;
      armed, changes, nextVersion, nextChange, handling, log := map[], map[], 0, 0, {}, [];
    }

    /** The files that are there are read; from now on, changes are watched. No file may be read or
        scheduled twice at a time, as after a first start none is. */
    method Start(existing: set<string>)
      requires Valid() && !watching
      requires forall f <- existing :: EndsWith(f, ".json") ==> f !in handling && f !in timers && f !in crons
      modifies this
      ensures Valid() && watching && armed == old(armed) && knownFiles == old(knownFiles) && changes == map[]
      ensures handling == old(handling) + EventFiles(existing)
      ensures log == old(log) + [Started(EventFiles(existing))]
    {
      hide History, Tables, Debounces;
      HistorySnoc(log, Started(EventFiles(existing)));
      log := log + [Started(EventFiles(existing))];
      handling := handling + EventFiles(existing);
      watching := true;
    }

    /** Nothing that could call back is left, but a file that is being read is read on. */
    method Stop()
      requires Valid()
      modifies this
      ensures Valid() && !watching && armed == map[] && changes == map[] && handling == old(handling)
      ensures timers == map[] && crons == map[] && debounceTimers == map[] && knownFiles == {}
      ensures log == old(log) + [Stopped]
      ensures History(log) == Next(History(old(log)).value, Stopped)
    {
      hide History, Tables, Debounces;
      AllInTables(timers, crons, armed);
      AllChanges(debounceTimers, changes, nextChange);
      HistorySnoc(log, Stopped);
      watching := false;
      changes := changes - debounceTimers.Values;
      debounceTimers := map[];
      armed := armed - timers.Values;
      timers := map[];
      armed := armed - crons.Values;
      crons := map[];
      knownFiles := {};
      log := log + [Stopped];
    }

    /** The file system reports a change: the last report for a file counts. */
    method Notify(filename: string)
      requires Valid() && watching
      modifies this
      ensures Valid() && log == old(log) && armed == old(armed) && knownFiles == old(knownFiles)
      ensures handling == old(handling) && watching
      ensures !EndsWith(filename, ".json") ==> changes == old(changes)
      ensures EndsWith(filename, ".json") ==> debounceTimers.Keys == old(debounceTimers).Keys + {filename}
    {
      hide Agrees, History, Tables;
      if EndsWith(filename, ".json") {
        if filename in debounceTimers {
          changes := changes - {debounceTimers[filename]};
        }
        debounceTimers := debounceTimers[filename := nextChange];
        changes := changes[nextChange := filename];
        nextChange := nextChange + 1;
      }
    }

    /** The debounce timer `handle` fires. A file may be found deleted while it is being read, but not
        modified, as that would be a second reading. */
    method ChangeSettled(handle: nat, exists_: bool)
      requires Valid() && handle in changes && (exists_ ==> changes[handle] !in handling)
      modifies this
      ensures Valid() && watching == old(watching)
      ensures changes == old(changes) - {handle}
      ensures var f := old(changes[handle]);
        && log == old(log) + Noticed(f, f in old(knownFiles), exists_)
        && knownFiles == (if exists_ then old(knownFiles) else old(knownFiles) - {f})
        && handling == (if exists_ then old(handling) + {f} else old(handling))
    {
      hide History, Tables, Agrees;
      var filename := changes[handle];
      debounceTimers := debounceTimers - {filename};
      changes := changes - {handle};
      HandleFileChange(filename, exists_);
    }

    method HandleFileChange(filename: string, exists_: bool)
      requires Valid() && watching && (exists_ ==> filename !in handling)
      modifies this
      ensures Valid() && watching && changes == old(changes)
      ensures log == old(log) + Noticed(filename, filename in old(knownFiles), exists_)
      ensures knownFiles == if exists_ then old(knownFiles) else old(knownFiles) - {filename}
      ensures handling == if exists_ then old(handling) + {filename} else old(handling)
    {
      hide History, Tables, Debounces, Agrees;
      if !exists_ {
        HandleDelete(filename);
      } else if filename in knownFiles {
        CancelScheduled(filename);
        BeginReading(filename);
      } else {
        BeginReading(filename);
      }
    }

    /** `handleFile` up to its first await. */
    ghost method BeginReading(filename: string)
      requires Valid() && watching && filename !in handling && filename !in timers && filename !in crons
      modifies this`handling, this`log
      ensures Valid() && handling == old(handling) + {filename} && log == old(log) + [Began(filename)]
    {
      hide History, Tables, Debounces;
      HistorySnoc(log, Began(filename));
      handling := handling + {filename};
      log := log + [Began(filename)];
    }

    method HandleDelete(filename: string)
      requires Valid()
      modifies this
      ensures Valid() && watching == old(watching) && changes == old(changes) && handling == old(handling)
      ensures log == old(log) + Noticed(filename, filename in old(knownFiles), false)
      ensures knownFiles == old(knownFiles) - {filename}
    {
      hide History, Tables, Debounces, Agrees;
      if filename !in knownFiles {
        NoteDeletion(filename);
        return;
      }
      CancelScheduled(filename);
      knownFiles := knownFiles - {filename};
      NoteDeletion(filename);
    }

    ghost method NoteDeletion(filename: string)
      requires Valid() && filename !in knownFiles
      modifies this`log
      ensures Valid() && log == old(log) + [Deleted(filename)]
    {
      hide History, Tables, Debounces, Without;
      OnlyItsOwn(timers, crons, armed, filename);
      HistorySnoc(log, Deleted(filename));
      log := log + [Deleted(filename)];
    }

    method CancelScheduled(filename: string)
      requires Valid()
      modifies this
      ensures Valid() && watching == old(watching) && changes == old(changes) && handling == old(handling)
      ensures knownFiles == old(knownFiles) && filename !in timers && filename !in crons
      ensures log == old(log) + [Cancelled(filename)] && armed == Without(old(armed), filename)
    {
      hide History, Tables, Debounces, Without;
      HistorySnoc(log, Cancelled(filename));
      OnlyItsOwn(timers, crons, armed, filename);
      if filename in timers {
        armed := armed - {timers[filename]};
        timers := timers - {filename};
      }
      if filename in crons {
        armed := armed - {crons[filename]};
        crons := crons - {filename};
      }
      assert timers == old(timers) - {filename} && crons == old(crons) - {filename};
      log := log + [Cancelled(filename)];
    }

    /** Reads and parses the file, up to three times; `contents` are what is found each time. */
    method ReadEvent(contents: seq<Option<string>>) returns (event: Option<Event>)
      requires |contents| == MAX_RETRIES
      ensures event.None? ==> forall i :: 0 <= i < |contents| ==> Parsed(json, contents[i]).None?
      ensures event.Some? ==>
                exists i :: 0 <= i < |contents| && Parsed(json, contents[i]) == event && NoneParsed(json, contents[..i])
    {
      event := None;
      for i := 0 to MAX_RETRIES
        invariant event.None? && forall j :: 0 <= j < i ==> Parsed(json, contents[j]).None?
      {
        event := Parsed(json, contents[i]);
        if event.Some? {
          break;
        }
      }
    }

    /** The file has been read: its event is run, scheduled, or dropped with the file. */
    method FileRead(filename: string, contents: seq<Option<string>>, mtime: Option<int>, now: int, enqueued: bool)
      returns (event: Option<Event>)
      requires Valid() && filename in handling && |contents| == MAX_RETRIES && NotBefore(now)
      modifies this
      ensures Valid() && watching == old(watching) && changes == old(changes)
      ensures handling == old(handling) - {filename}
      ensures event.None? <==> forall i :: 0 <= i < |contents| ==> Parsed(json, contents[i]).None?
      ensures event.Some? ==> exists i :: 0 <= i < |contents| && Parsed(json, contents[i]) == event
      ensures var news := Reaction(event, filename, old(nextVersion), mtime, now, enqueued);
        && log == old(log) + ([ReadDone(filename)] + news)
        && knownFiles ==
             if Unlinked(filename) in news then old(knownFiles) - {filename} else old(knownFiles) + {filename}
    {
      hide History, Tables, Debounces, Agrees, Parsed, NoneParsed;
      EndReading(filename, now);
      event := ReadEvent(contents);
      if event.None? {
        DropFile(filename);
        return;
      }
      Respond(filename, event.value, mtime, now, enqueued);
      assert log ==
        old(log) + ([ReadDone(filename)] + Reaction(event, filename, old(nextVersion), mtime, now, enqueued));
    }

    /** Runs or schedules an event, according to its type. */
    method Respond(filename: string, event: Event, mtime: Option<int>, now: int, enqueued: bool)
      requires Valid() && filename !in handling && filename !in timers && filename !in crons
      requires JustRead(filename) && NotBefore(now)
      modifies this
      ensures Valid() && watching == old(watching) && changes == old(changes) && handling == old(handling)
      ensures var news := Reaction(Some(event), filename, old(nextVersion), mtime, now, enqueued);
        && log == old(log) + news
        && knownFiles ==
             if Unlinked(filename) in news then old(knownFiles) - {filename} else old(knownFiles) + {filename}
    {
      hide History, Tables, Debounces, Agrees;
      knownFiles := knownFiles + {filename};
      match event
      case Immediate(_, _) => HandleImmediate(filename, event, mtime, now, enqueued);
      case OneShot(_, _, _) => HandleOneShot(filename, event, now);
      case Periodic(_, _, _, _) => HandlePeriodic(filename, event, now);
    }

    /** `handleFile` after its last await. */
    ghost method EndReading(filename: string, now: int)
      requires Valid() && filename in handling && NotBefore(now)
      modifies this`handling, this`log
      ensures Valid() && handling == old(handling) - {filename} && log == old(log) + [ReadDone(filename)]
      ensures JustRead(filename) && NotBefore(now) && filename !in timers && filename !in crons
    {
      hide History, Tables, Debounces;
      HistorySnoc(log, ReadDone(filename));
      handling := handling - {filename};
      log := log + [ReadDone(filename)];
    }

    /** What a newly read file leads to, as the entries that are logged. */
    function Reaction(event: Option<Event>, f: string, version: nat, mtime: Option<int>, now: int, enqueued: bool)
      : seq<Entry>
    {
      match event
      case None => [Unlinked(f)]
      case Some(Immediate(_, _)) =>
        if mtime.None? then []
        else if mtime.value < startTime then [Unlinked(f)]
        else [Loaded(version, Job(f, event.value, None, now), now), Ran(version, now, enqueued), Unlinked(f)]
      case Some(OneShot(_, _, at)) =>
        if timeOf(at).Some? && timeOf(at).value <= now then [Unlinked(f)]
        else [Loaded(version, Job(f, event.value, timeOf(at), Due(timeOf(at), now)), now)]
      case Some(Periodic(_, _, schedule, timezone)) =>
        if cronAccepts(schedule, timezone) then [Loaded(version, Job(f, event.value, None, now), now)]
        else [Unlinked(f)]
    }

    /** Deletes the file of an event for which nothing is scheduled. */
    method DropFile(filename: string)
      requires Valid() && filename !in timers && filename !in crons
      modifies this`log, this`knownFiles
      ensures Valid() && log == old(log) + [Unlinked(filename)] && knownFiles == old(knownFiles) - {filename}
    {
      hide History, Tables, Debounces;
      HistorySnoc(log, Unlinked(filename));
      DeleteFile(filename);
    }

    /** Dropped if it is from before the start; `mtime` is None if the file is gone. */
    method HandleImmediate(filename: string, event: Event, mtime: Option<int>, now: int, enqueued: bool)
      requires Valid() && event.Immediate? && filename in knownFiles && filename !in timers && filename !in crons
      requires JustRead(filename) && NotBefore(now)
      modifies this
      ensures Valid() && watching == old(watching) && changes == old(changes) && handling == old(handling)
      ensures var news := Reaction(Some(event), filename, old(nextVersion), mtime, now, enqueued);
        && log == old(log) + news
        && knownFiles == if Unlinked(filename) in news then old(knownFiles) - {filename} else old(knownFiles)
    {
      hide History, Tables, Debounces;
      if mtime.None? {
        return;
      }
      if mtime.value < startTime {
        DropFile(filename);
        return;
      }
      NothingScheduled(timers, crons, armed, filename);
      var version, job := nextVersion, Job(filename, event, None, now);
      RunsAtOnce(log, version, job, now, enqueued);
      log := log + [Loaded(version, job, now)];
      nextVersion := nextVersion + 1;
      Execute(filename, version, now, enqueued, true);
      assert log == old(log) + [Loaded(version, job, now), Ran(version, now, enqueued), Unlinked(filename)];
    }

    method HandleOneShot(filename: string, event: Event, now: int)
      requires Valid() && event.OneShot? && filename in knownFiles && filename !in timers && filename !in crons
      requires filename !in handling && JustRead(filename) && NotBefore(now)
      modifies this
      ensures Valid() && watching == old(watching) && changes == old(changes) && handling == old(handling)
      ensures var news := Reaction(Some(event), filename, old(nextVersion), None, now, false);
        && log == old(log) + news
        && knownFiles == if Unlinked(filename) in news then old(knownFiles) - {filename} else old(knownFiles)
    {
      hide History, Tables, Debounces, NothingFor;
      var atTime := timeOf(event.at);
      if atTime.Some? && atTime.value <= now {
        DropFile(filename);
        return;
      }
      var delay := if atTime.Some? then Some(atTime.value - now) else None;
      var version, job := nextVersion, Job(filename, event, atTime, now + Wait(delay));
      NothingScheduled(timers, crons, armed, filename);
      HistorySnoc(log, Loaded(version, job, now));
      ArmedFor(timers, crons, log, version, job);
      armed := armed[version := job];
      timers := timers[filename := version];
      nextVersion := nextVersion + 1;
      log := log + [Loaded(version, job, now)];
    }

    method HandlePeriodic(filename: string, event: Event, now: int)
      requires Valid() && event.Periodic? && filename in knownFiles && filename !in timers && filename !in crons
      requires filename !in handling && JustRead(filename) && NotBefore(now)
      modifies this
      ensures Valid() && watching == old(watching) && changes == old(changes) && handling == old(handling)
      ensures var news := Reaction(Some(event), filename, old(nextVersion), None, now, false);
        && log == old(log) + news
        && knownFiles == if Unlinked(filename) in news then old(knownFiles) - {filename} else old(knownFiles)
    {
      hide History, Tables, Debounces, NothingFor;
      if cronAccepts(event.schedule, event.timezone) {
        var version, job := nextVersion, Job(filename, event, None, now);
        NothingScheduled(timers, crons, armed, filename);
        HistorySnoc(log, Loaded(version, job, now));
        ArmedFor(timers, crons, log, version, job);
        armed := armed[version := job];
        crons := crons[filename := version];
        nextVersion := nextVersion + 1;
        log := log + [Loaded(version, job, now)];
      } else {
        DropFile(filename);
      }
    }

    /** The timer of a one-shot event fires: the event runs and its file is removed. */
    method TimerFired(version: nat, now: int, enqueued: bool)
      requires Valid() && version in armed && armed[version].event.OneShot? && armed[version].due <= now
      requires NotBefore(now)
      modifies this
      ensures Valid() && watching == old(watching) && changes == old(changes) && handling == old(handling)
      ensures var f := old(armed[version].filename);
        && log == old(log) + [Ran(version, now, enqueued), Unlinked(f)]
        && knownFiles == old(knownFiles) - {f} && armed == old(armed) - {version}
    {
      hide History, Tables, Debounces;
      var filename := armed[version].filename;
      RunAndUnlink(log, version, now, enqueued, filename);
      TimerDone(timers, crons, armed, version);
      armed := armed - {version};
      timers := timers - {filename};
      Execute(filename, version, now, enqueued, true);
    }

    /** A periodic event stays scheduled. */
    method CronFired(version: nat, now: int, enqueued: bool)
      requires Valid() && version in armed && armed[version].event.Periodic? && armed[version].due <= now
      requires NotBefore(now)
      modifies this
      ensures Valid() && watching == old(watching) && changes == old(changes) && handling == old(handling)
      ensures log == old(log) + [Ran(version, now, enqueued)]
      ensures knownFiles == old(knownFiles) && armed == old(armed)
    {
      hide History, Tables, Debounces;
      HistorySnoc(log, Ran(version, now, enqueued));
      Execute(armed[version].filename, version, now, enqueued, false);
    }

    /** Hands the event to its channel's queue; a full queue discards it all the same. */
    method Execute(filename: string, version: nat, now: int, enqueued: bool, deleteAfter: bool)
      modifies this`log, this`knownFiles
      ensures log == old(log) +
                if deleteAfter then [Ran(version, now, enqueued), Unlinked(filename)] else [Ran(version, now, enqueued)]
      ensures knownFiles == if deleteAfter then old(knownFiles) - {filename} else old(knownFiles)
    {
      log := log + [Ran(version, now, enqueued)];
      if enqueued && deleteAfter {
        DeleteFile(filename);
      } else if !enqueued {
        if deleteAfter {
          DeleteFile(filename);
        }
      }
    }

    /** Removes the file; whether or not that works, it is no longer known. */
    method DeleteFile(filename: string)
      modifies this`log, this`knownFiles
      ensures log == old(log) + [Unlinked(filename)] && knownFiles == old(knownFiles) - {filename}
    {
      log := log + [Unlinked(filename)];
      knownFiles := knownFiles - {filename};
    }
  }

  predicate NoneParsed(json: string -> Option<Fields>, contents: seq<Option<string>>) {
    forall i :: 0 <= i < |contents| ==> Parsed(json, contents[i]).None?
  }

  function Parsed(json: string -> Option<Fields>, read: Option<string>): Option<Event> {
    if read.None? || json(read.value).None? then None else ParseEvent(json(read.value).value)
  }

  function EventFiles(files: set<string>): set<string> {
    set f <- files | EndsWith(f, ".json")
  }

  /** What is logged when a change of a file is noticed. */
  function Noticed(f: string, known: bool, exists_: bool): seq<Entry> {
    (if known then [Cancelled(f)] else []) + [if exists_ then Began(f) else Deleted(f)]
  }

  lemma NothingScheduled(timers: map<string, nat>, crons: map<string, nat>, armed: map<nat, Job>, f: string)
    requires Tables(timers, crons, armed) && f !in timers && f !in crons
    ensures NothingFor(armed, f)
  {
    assert forall v <- armed :: Held(timers, crons, armed, v);
  }

  lemma RunAndUnlink(log: seq<Entry>, version: nat, now: int, enqueued: bool, filename: string)
    requires Lawful(log) && Next(History(log).value, Ran(version, now, enqueued)).Some?
    ensures var after := log + [Ran(version, now, enqueued), Unlinked(filename)];
      && Lawful(after)
      && var s, t := History(log).value, History(after).value;
      && t.armed == (if s.armed[version].event.Periodic? then s.armed else s.armed - {version})
      && t.loads == s.loads && t.reading == s.reading && t.watching == s.watching
  {
    var ran := log + [Ran(version, now, enqueued)];
    HistorySnoc(log, Ran(version, now, enqueued));
    HistorySnoc(ran, Unlinked(filename));
    assert ran + [Unlinked(filename)] == log + [Ran(version, now, enqueued), Unlinked(filename)];
  }

  lemma RunsAtOnce(log: seq<Entry>, version: nat, job: Job, now: int, enqueued: bool)
    requires Lawful(log) && Next(History(log).value, Loaded(version, job, now)).Some? && job.event.Immediate?
    ensures var after := log + [Loaded(version, job, now), Ran(version, now, enqueued), Unlinked(job.filename)];
      && Lawful(after)
      && var s, t := History(log).value, History(after).value;
      && t.armed == s.armed && t.loads == s.loads + 1 && t.reading == s.reading && t.watching == s.watching
  {
    var loaded := log + [Loaded(version, job, now)];
    HistorySnoc(log, Loaded(version, job, now));
    RunAndUnlink(loaded, version, now, enqueued, job.filename);
    FreshVersion(log);
    assert History(log).value.armed[version := job] - {version} == History(log).value.armed;
    assert loaded + [Ran(version, now, enqueued), Unlinked(job.filename)] ==
           log + [Loaded(version, job, now), Ran(version, now, enqueued), Unlinked(job.filename)];
  }

  lemma FreshVersion(log: seq<Entry>)
    requires Lawful(log)
    ensures History(log).value.loads !in History(log).value.armed
  {
    assert log[..|log|] == log;
    if History(log).value.loads in At(log, |log|).armed {
      var k := WasLoaded(log, |log|, History(log).value.loads);
      AfterLoad(log, k, |log|);
    }
  }

  lemma ArmedFor(timers: map<string, nat>, crons: map<string, nat>, log: seq<Entry>, version: nat, job: Job)
    requires Lawful(log) && version == History(log).value.loads
    requires Tables(timers, crons, History(log).value.armed) && job.filename !in timers && job.filename !in crons
    ensures var armed := History(log).value.armed;
      && (job.event.OneShot? ==> Tables(timers[job.filename := version], crons, armed[version := job]))
      && (job.event.Periodic? ==> Tables(timers, crons[job.filename := version], armed[version := job]))
  {
    FreshVersion(log);
    var armed := History(log).value.armed;
    assert forall v <- armed :: Held(timers, crons, armed, v);
  }

  lemma TimerDone(timers: map<string, nat>, crons: map<string, nat>, armed: map<nat, Job>, version: nat)
    requires Tables(timers, crons, armed) && version in armed && armed[version].event.OneShot?
    ensures armed[version].filename in timers && armed[version].filename !in crons
    ensures Tables(timers - {armed[version].filename}, crons, armed - {version})
  {
    assert forall v <- armed :: Held(timers, crons, armed, v);
  }

  /** Stopping while a file is being read: its event is scheduled after the stop, and will run. */
  method StopWhileReading(w: EventsWatcher, f: string, contents: seq<Option<string>>, event: Event, now: int)
    requires w.Valid() && !w.watching && EndsWith(f, ".json") && f !in w.handling && f !in w.timers && f !in w.crons
    requires |contents| == MAX_RETRIES && forall content <- contents :: Parsed(w.json, content) == Some(event)
    requires event.OneShot? && w.timeOf(event.at).Some? && w.timeOf(event.at).value > now && w.NotBefore(now)
    modifies w
    ensures w.Valid() && !w.watching && w.changes == map[]
    ensures var at := w.timeOf(event.at);
      w.log == old(w.log) +
        [Started({f}), Stopped, ReadDone(f), Loaded(old(w.nextVersion), Job(f, event, at, Due(at, now)), now)]
    ensures old(w.nextVersion) in w.armed
  {
    hide Tables, Debounces, Parsed, History, Next;
    ghost var version := w.nextVersion;
    StartAndStop(w, f, now);
    var read := w.FileRead(f, contents, None, now, true);
    ghost var loaded := Loaded(version, Job(f, event, w.timeOf(event.at), Due(w.timeOf(event.at), now)), now);
    assert contents[0] in contents && read == Some(event);
    LastLoadIsArmed(w.log, w.log[..|w.log| - 1], loaded);
    assert w.log == old(w.log) + [Started({f}), Stopped, ReadDone(f), loaded];
  }

  method StartAndStop(w: EventsWatcher, f: string, ghost now: int)
    requires w.Valid() && !w.watching && EndsWith(f, ".json") && f !in w.handling && f !in w.timers && f !in w.crons
    requires w.NotBefore(now)
    modifies w
    ensures w.Valid() && !w.watching && w.changes == map[] && f in w.handling && w.NotBefore(now)
    ensures w.log == old(w.log) + [Started({f}), Stopped] && w.nextVersion == old(w.nextVersion)
  {
    hide Tables, Debounces;
    assert EventFiles({f}) == {f};
    HistorySnoc(w.log, Started({f}));
    w.Start({f});
    w.Stop();
    assert w.log == old(w.log) + [Started({f}), Stopped];
  }

  lemma LastLoadIsArmed(log: seq<Entry>, before: seq<Entry>, entry: Entry)
    requires Lawful(log) && log == before + [entry] && entry.Loaded?
    ensures entry.version in History(log).value.armed
  {
    assert log[..|log| - 1] == before;
  }

  predicate EndsWith(s: string, suffix: string) {
    |suffix| <= |s| && s[|s| - |suffix|..] == suffix
  }
}
