/** The watcher of scheduled event files (packages/mom/src/events.ts): the timers, cron jobs and
    debounce timers it keeps by file name, against the handles that are really live. Handling a file
    is one step. */
module EventsWatcher {
  import opened Wrappers

  datatype Content = Malformed | Immediate | OneShot(at: Option<int>) | Periodic(validSchedule: bool)

  /** What one write put into a file (`at` is missing when it does not read as a date); no two writes share an id. */
  datatype Version = Version(id: nat, content: Content, modified: int)

  datatype Task =
    | Debounce(name: string)
    | OneShotTask(name: string, version: Version)
    | CronTask(name: string, version: Version)

  /** How the world answers while a file is handled: the time, whether the channel's queue has room,
      whether the file can be examined and deleted. */
  datatype Oracle = Oracle(now: int, accepts: bool, stats: bool, unlinks: bool)

  /** Versions are told apart by id, on disk and in what is scheduled. */
  ghost predicate Versions(disk: map<string, Version>, live: map<nat, Task>, next: nat) {
    && (forall n <- disk :: disk[n].id < next)
    && (forall m <- disk, n <- disk :: disk[m].id == disk[n].id ==> m == n)
    && (forall h <- live :: !live[h].Debounce? ==> live[h].version.id < next)
    && (forall h <- live, n <- disk :: !live[h].Debounce? && live[h].version.id == disk[n].id ==> live[h].name == n)
    && (forall g <- live, h <- live ::
          !live[g].Debounce? && !live[h].Debounce? && live[g].version.id == live[h].version.id ==>
            live[g].name == live[h].name)
  }

  /** What has run: immediate and one-shot versions, versions the queue accepted, versions left on
      disk because their deletion failed after they ran, and versions run by a cron job. */
  datatype History = History(executions: multiset<nat>, enqueued: multiset<nat>, failures: multiset<nat>,
                             recurring: multiset<nat>)

  function One(v: nat, really: bool): multiset<nat> {
    if really then multiset{v} else multiset{}
  }

  function RanOnce(h: History, v: nat, accepted: bool, leftOnDisk: bool): History {
    History(h.executions + multiset{v}, h.enqueued + One(v, accepted), h.failures + One(v, leftOnDisk), h.recurring)
  }

  function RanAgain(h: History, v: nat, accepted: bool): History {
    h.(enqueued := h.enqueued + One(v, accepted), recurring := h.recurring + multiset{v})
  }

  /** How often a version ran and how often the deletion that should follow failed: as often as it ran
      while it can still run, at most once less when it cannot. */
  ghost predicate Ledger(disk: map<string, Version>, live: map<nat, Task>, next: nat, h: History) {
    Counted(h, next) && RunsMatch(disk, live, h)
  }

  ghost predicate Counted(h: History, next: nat) {
    && (forall v: nat :: h.failures[v] <= h.executions[v] <= h.failures[v] + 1)
    && (forall v: nat :: v >= next ==> h.executions[v] == h.failures[v] == 0)
    && (forall v: nat :: h.enqueued[v] <= h.executions[v] + h.recurring[v])
  }

  ghost predicate RunsMatch(disk: map<string, Version>, live: map<nat, Task>, h: History) {
    && (forall n <- disk :: h.executions[disk[n].id] == h.failures[disk[n].id])
    && (forall k <- live :: live[k].OneShotTask? ==> h.executions[live[k].version.id] == h.failures[live[k].version.id])
  }

  lemma VersionsShrink(disk: map<string, Version>, live: map<nat, Task>, next: nat, names: set<string>,
                       handles: set<nat>)
    requires Versions(disk, live, next)
    ensures Versions(disk - names, live - handles, next)
  {
  }

  lemma LedgerShrinks(disk: map<string, Version>, live: map<nat, Task>, next: nat, h: History, names: set<string>,
                      handles: set<nat>)
    requires Ledger(disk, live, next, h)
    ensures Ledger(disk - names, live - handles, next, h)
  {
  }

  /** The version is scheduled nowhere, and on disk under this name if at all. */
  ghost predicate Unscheduled(disk: map<string, Version>, live: map<nat, Task>, name: string, v: nat) {
    && (forall k <- live :: !live[k].Debounce? ==> live[k].version.id != v)
    && (forall n <- disk :: disk[n].id == v ==> n == name)
  }

  lemma TaskAdded(disk: map<string, Version>, live: map<nat, Task>, next: nat, h: History, handle: nat, task: Task)
    requires Versions(disk, live, next) && Ledger(disk, live, next, h) && handle !in live
    requires !task.Debounce? ==> task.version.id < next && h.executions[task.version.id] == h.failures[task.version.id]
    requires !task.Debounce? ==> Unscheduled(disk, live, task.name, task.version.id)
    ensures Versions(disk, live[handle := task], next) && Ledger(disk, live[handle := task], next, h)
  {
  }

  lemma OneNamePerVersion(disk: map<string, Version>, live: map<nat, Task>, next: nat)
    requires Versions(disk, live, next)
    ensures forall m <- disk, n <- disk :: disk[m].id == disk[n].id ==> m == n
  {
  }

  lemma FailuresAfter(h: History, v: nat, accepted: bool, leftOnDisk: bool)
    ensures forall u: nat :: RanOnce(h, v, accepted, leftOnDisk).failures[u]
                          == h.failures[u] + (if u == v && leftOnDisk then 1 else 0)
    ensures forall u: nat :: RanAgain(h, v, accepted).failures[u] == h.failures[u]
    ensures forall u: nat :: RanOnce(h, v, accepted, leftOnDisk).executions[u]
                          == h.executions[u] + (if u == v then 1 else 0)
    ensures forall u: nat :: RanOnce(h, v, accepted, leftOnDisk).enqueued[u]
                          == h.enqueued[u] + (if u == v && accepted then 1 else 0)
  {
  }

  lemma RanOnceMeaning(h: History, v: nat, accepted: bool)
    ensures forall left :: RanOnce(h, v, accepted, left).executions == h.executions + multiset{v}
  {
  }

  lemma OthersDidNotRun(h: History, g: History, v: nat, o: Oracle)
    ensures g == h || g == RanOnce(h, v, o.accepts, !o.unlinks) ==>
              forall u: nat :: u != v ==> g.executions[u] == h.executions[u]
  {
  }

  lemma CronRuns(h: History, v: nat, accepted: bool)
    ensures var g := RanAgain(h, v, accepted);
            && g.recurring == h.recurring + multiset{v} && g.executions == h.executions
            && g.enqueued == if accepted then h.enqueued + multiset{v} else h.enqueued
  {
  }

  /** Each version has at most one more failed deletion than before, none if none is refused, and none
      if its file is among those still to be handled. */
  ghost predicate FailedOnce(before: History, now: History, disk: map<string, Version>, files: set<string>,
                             refuses: bool) {
    && (forall v: nat :: before.failures[v] <= now.failures[v] <= before.failures[v] + (if refuses then 1 else 0))
    && (forall n <- files :: n in disk && now.failures[disk[n].id] == before.failures[disk[n].id])
  }

  lemma NoneFailed(h: History, disk: map<string, Version>, files: set<string>, refuses: bool)
    requires files <= disk.Keys
    ensures FailedOnce(h, h, disk, files, refuses)
  {
  }

  lemma FailedOnceStep(before: History, now: History, next: History, disk: map<string, Version>, files: set<string>,
                       name: string, o: Oracle, refuses: bool)
    requires FailedOnce(before, now, disk, files, refuses) && name in files && (!o.unlinks ==> refuses)
    requires forall m <- disk, n <- disk :: disk[m].id == disk[n].id ==> m == n
    requires next == now || next == RanOnce(now, disk[name].id, o.accepts, !o.unlinks)
    ensures FailedOnce(before, next, disk, files - {name}, refuses)
  {
    var v := disk[name].id;
    OtherVersions(disk, name);
    FailuresOf(now, v, o.accepts, !o.unlinks);
    FailuresMove(before, now, next, disk, files, name, if next == now || o.unlinks then 0 else 1, refuses);
  }

  lemma OtherVersions(disk: map<string, Version>, name: string)
    requires name in disk && forall m <- disk, n <- disk :: disk[m].id == disk[n].id ==> m == n
    ensures forall n <- disk :: n != name ==> disk[n].id != disk[name].id
  {
  }

  lemma FailuresMove(before: History, now: History, next: History, disk: map<string, Version>, files: set<string>,
                     name: string, more: nat, refuses: bool)
    requires FailedOnce(before, now, disk, files, refuses) && name in files && more <= (if refuses then 1 else 0)
    requires forall n <- disk :: n != name ==> disk[n].id != disk[name].id
    requires forall u: nat :: next.failures[u] == now.failures[u] + (if u == disk[name].id then more else 0)
    ensures FailedOnce(before, next, disk, files - {name}, refuses)
  {
    assert now.failures[disk[name].id] == before.failures[disk[name].id];
  }

  lemma FailuresOf(h: History, v: nat, accepted: bool, leftOnDisk: bool)
    ensures forall u: nat :: RanOnce(h, v, accepted, leftOnDisk).failures[u]
                          == h.failures[u] + (if u == v && leftOnDisk then 1 else 0)
  {
  }

  /** A version that may still run runs once: if it is gone from the disk afterwards it cannot run
      again, if it is not then one more deletion has failed. */
  lemma LedgerRuns(disk: map<string, Version>, live: map<nat, Task>, next: nat, h: History, name: string, v: nat,
                   accepted: bool,
      after: map<string, Version>)
    requires Ledger(disk, live, next, h) && v < next && h.executions[v] == h.failures[v]
    requires Unscheduled(disk, live, name, v)
    requires after == disk || after == disk - {name}
    ensures Ledger(after, live, next, RanOnce(h, v, accepted, name in after && after[name].id == v))
  {
    hide RanOnce, Unscheduled, Counted, RunsMatch;
    RunCounted(h, next, v, accepted, name in after && after[name].id == v);
    RunElsewhere(disk, live, h, name, v, accepted, after);
  }

  lemma RunCounted(h: History, next: nat, v: nat, accepted: bool, left: bool)
    requires Counted(h, next) && v < next && h.executions[v] == h.failures[v]
    ensures Counted(RanOnce(h, v, accepted, left), next)
  {
  }

  lemma RunElsewhere(disk: map<string, Version>, live: map<nat, Task>, h: History, name: string, v: nat, accepted: bool,
                     after: map<string, Version>)
    requires RunsMatch(disk, live, h)
    requires Unscheduled(disk, live, name, v) && (after == disk || after == disk - {name})
    ensures RunsMatch(after, live, RanOnce(h, v, accepted, name in after && after[name].id == v))
  {
  }

  lemma LedgerRunsAgain(disk: map<string, Version>, live: map<nat, Task>, next: nat, h: History, v: nat, accepted: bool)
    requires Ledger(disk, live, next, h)
    ensures Ledger(disk, live, next, RanAgain(h, v, accepted))
  {
  }

  /** The directory, the event loop's handles, and the history. */
  class Machine {
    var disk: map<string, Version>
    var live: map<nat, Task>
    var nextHandle: nat
    var nextVersion: nat
    ghost var history: History

    constructor ()
      ensures Valid() && live == map[] && disk == map[] && nextVersion == 0
      ensures history == History(multiset{}, multiset{}, multiset{}, multiset{})
    {
      disk, live, nextHandle, nextVersion := map[], map[], 0, 0;
      history := History(multiset{}, multiset{}, multiset{}, multiset{});
    }

    ghost predicate Handles() reads `live, `nextHandle {
      forall h <- live :: h < nextHandle
    }

    ghost predicate Valid() reads this {
      && Handles()
      && Versions(disk, live, nextVersion)
      && Ledger(disk, live, nextVersion, history)
    }

    /** A version that has run only as often as its deletion has failed, and is scheduled nowhere. */
    ghost predicate MayRun(name: string, version: Version) reads this {
      && version.id < nextVersion && history.executions[version.id] == history.failures[version.id]
      && Unscheduled(disk, live, name, version.id)
    }

    /** `setTimeout`, or a cron job being started. */
    method Start(task: Task) returns (h: nat)
      requires Valid() && (!task.Debounce? ==> MayRun(task.name, task.version))
      modifies this`live, this`nextHandle
      ensures Valid() && h == old(nextHandle) && h !in old(live) && live == old(live)[h := task]
    {
      hide Ledger, Versions, Unscheduled;
      h := nextHandle;
      TaskAdded(disk, live, nextVersion, history, h, task);
      live := live[h := task];
      nextHandle := nextHandle + 1;
    }

    /** `clearTimeout`, or a cron job being stopped. */
    method Clear(h: nat)
      requires Valid()
      modifies this`live
      ensures Valid() && live == old(live) - {h}
    {
      hide Ledger, Versions;
      VersionsShrink(disk, live, nextVersion, {}, {h});
      LedgerShrinks(disk, live, nextVersion, history, {}, {h});
      assert disk - {} == disk;
      live := live - {h};
    }

    method ClearAll(handles: map<string, nat>)
      requires Valid()
      modifies this`live
      ensures Valid() && live == old(live) - handles.Values
    {
      var names := handles.Keys;
      ghost var cleared: set<nat> := {};
      while names != {}
        invariant Valid() && names <= handles.Keys
        invariant cleared <= handles.Values && (forall n <- handles :: n !in names ==> handles[n] in cleared)
        invariant live == old(live) - cleared
        decreases names
      {
        var n :| n in names;
        Clear(handles[n]);
        cleared := cleared + {handles[n]};
        names := names - {n};
      }
      assert cleared == handles.Values;
    }

    method Unlink(name: string, succeeds: bool)
      requires Valid()
      modifies this`disk
      ensures Valid() && disk == if succeeds then old(disk) - {name} else old(disk)
    {
      hide Ledger, Versions;
      if succeeds {
        VersionsShrink(disk, live, nextVersion, {name}, {});
        LedgerShrinks(disk, live, nextVersion, history, {name}, {});
        assert live - {} == live;
        disk := disk - {name};
      }
    }

    /** Someone writes or removes a file. */
    method Write(name: string, content: Content, modified: int)
      requires Valid()
      modifies this`disk, this`nextVersion
      ensures Valid() && disk == old(disk)[name := Version(old(nextVersion), content, modified)]
      ensures nextVersion == old(nextVersion) + 1
    {
      disk := disk[name := Version(nextVersion, content, modified)];
      nextVersion := nextVersion + 1;
    }

    method Remove(name: string)
      requires Valid()
      modifies this`disk
      ensures Valid() && disk == old(disk) - {name}
    {
      disk := disk - {name};
    }
  }

  /** Everything that can happen: files change, the directory reports it, something that is live
      fires, the watcher is started and stopped. */
  datatype Action = Write(name: string, content: Content, modified: int) | Remove(name: string) | Notify(name: string)
    | Fire(handle: nat, o: Oracle) | Start(readable: bool, oracles: string -> Oracle) | Stop

  /** How the world answers when this action handles a file. */
  function Answer(a: Action, name: string): Oracle
    requires a.Fire? || a.Start?
  {
    if a.Fire? then a.o else a.oracles(name)
  }

  /** The files, the versions that have a timer, by file, and how often each version has run. */
  datatype Books = Books(disk: map<string, Version>, timers: map<string, Version>, executions: multiset<nat>)

  type ByFile = map<string, nat>

  function BooksOf(disk: map<string, Version>, timers: ByFile, loaded: map<string, Version>, h: History): Books {
    Books(disk, map n | n in timers && n in loaded :: loaded[n], h.executions)
  }

  /** Whether a version stays on disk, known to the watcher, once it has been handled. */
  predicate Stays(v: Version, o: Oracle) {
    match v.content
    case Malformed => false
    case Immediate => !o.stats
    case OneShot(at) => at.None? || at.value > o.now
    case Periodic(valid) => valid
  }

  /** The live task behind a recorded handle. */
  function TaskAt(handles: ByFile, live: map<nat, Task>, name: string): Option<Task> {
    if name in handles && handles[name] in live then Some(live[handles[name]]) else None
  }

  /** What handling a file must lead to, by what the file holds: whether it is still on disk, its live
      timer and its live cron job, and how often the version has run. */
  predicate FileOutcome(name: string, v: Version, o: Oracle, startTime: int, kept: bool, timer: Option<Task>,
                        job: Option<Task>, ran: int)
  {
    match v.content
    case Malformed => kept == !o.unlinks && timer == None && job == None && ran == 0
    case Immediate =>
      && timer == None && job == None
      && if !o.stats then kept && ran == 0
         else kept == !o.unlinks && ran == if v.modified < startTime then 0 else 1
    case OneShot(at) =>
      && job == None && ran == 0
      && if at != None && at.value <= o.now then kept == !o.unlinks && timer == None
         else kept && timer == Some(OneShotTask(name, v))
    case Periodic(valid) =>
      && timer == None && ran == 0
      && if valid then kept && job == Some(CronTask(name, v))
         else kept == !o.unlinks && job == None
  }

  /** The file `name`, which held `v` before, is as handling it must leave it. */
  ghost predicate OutcomeIn(name: string, v: Version, o: Oracle, startTime: int, disk: map<string, Version>,
                            timers: ByFile,
                            crons: ByFile, live: map<nat, Task>, h: History, before: History)
  {
    FileOutcome(name, v, o, startTime, name in disk && disk[name] == v,
                TaskAt(timers, live, name), TaskAt(crons, live, name),
                h.executions[v.id] as int - before.executions[v.id] as int)
  }

  /** So are all event files of `disk` but `files`, whose versions have not run. */
  ghost predicate Outcomes(disk: map<string, Version>, files: set<string>, oracles: string -> Oracle, startTime: int,
                           current: map<string, Version>, timers: ByFile, crons: ByFile, live: map<nat, Task>,
                           h: History, before: History)
  {
    && (forall n <- disk :: EndsWithJson(n) && n !in files ==>
          OutcomeIn(n, disk[n], oracles(n), startTime, current, timers, crons, live, h, before))
    && (forall n <- files :: n in disk && h.executions[disk[n].id] == before.executions[disk[n].id])
  }

  lemma OutcomesStep(disk: map<string, Version>, files: set<string>, oracles: string -> Oracle, startTime: int,
                     current: map<string, Version>, timers: ByFile, crons: ByFile, live: map<nat, Task>,
                     h: History, before: History, name: string,
                     current': map<string, Version>, timers': ByFile, crons': ByFile, live': map<nat, Task>,
                     h': History)
    requires Outcomes(disk, files, oracles, startTime, current, timers, crons, live, h, before) && name in files
    requires name in disk
          && OutcomeIn(name, disk[name], oracles(name), startTime, current', timers', crons', live', h', h)
    requires forall n :: n != name ==> TaskAt(timers', live', n) == TaskAt(timers, live, n)
    requires forall n :: n != name ==> TaskAt(crons', live', n) == TaskAt(crons, live, n)
    requires current' == current || current' == current - {name}
    requires forall n <- disk :: n != name ==> disk[n].id != disk[name].id
    requires forall u: nat :: u != disk[name].id ==> h'.executions[u] == h.executions[u]
    ensures Outcomes(disk, files - {name}, oracles, startTime, current', timers', crons', live', h', before)
  {
    hide FileOutcome, TaskAt, EndsWithJson;
  }

  lemma OthersTasks(live: map<nat, Task>, timers: ByFile, crons: ByFile, debounces: ByFile,
                    loaded: map<string, Version>,
                    live': map<nat, Task>, timers': ByFile, crons': ByFile, debounces': ByFile,
                    loaded': map<string, Version>, name: string)
    requires RecordedIn(live, timers, crons, debounces, loaded)
    requires RecordedIn(live', timers', crons', debounces', loaded')
    requires loaded' - {name} == loaded - {name}
    requires forall n :: n != name ==> (n in timers' <==> n in timers) && (n in crons' <==> n in crons)
    ensures forall n :: n != name ==> TaskAt(timers', live', n) == TaskAt(timers, live, n)
    ensures forall n :: n != name ==> TaskAt(crons', live', n) == TaskAt(crons, live, n)
  {
    forall n | n != name && n in loaded
      ensures n in loaded' && loaded'[n] == loaded[n]
    {
      assert n in loaded - {name};
    }
  }

  /** The version is a one-shot event whose date is not over, or cannot be read. */
  predicate Ahead(v: Version, now: int) {
    v.content.OneShot? && (v.content.at.None? || v.content.at.value > now)
  }

  /** One file is handled: it may be deleted, gets a timer only for a version on disk that is still
      ahead, and runs only if it is an immediate event. */
  ghost predicate Handled(b: Books, c: Books, name: string, o: Oracle) {
    && (forall n <- c.disk :: n in b.disk && c.disk[n] == b.disk[n])
    && (forall n <- c.timers ::
          || (n in b.timers && c.timers[n] == b.timers[n])
          || (n == name && n in b.disk && c.timers[n] == b.disk[n] && Ahead(b.disk[n], o.now)))
    && (forall v: nat ::
          || c.executions[v] == b.executions[v]
          || (name in b.disk && b.disk[name].id == v && b.disk[name].content.Immediate?))
  }

  /** The same of one action, which handles any number of files, or has a timer fire for `fired`. */
  ghost predicate Follows(b: Books, c: Books, a: Action, fired: Option<Version>) {
    && (forall n <- c.disk :: n in b.disk && c.disk[n] == b.disk[n])
    && (forall n <- c.timers ::
          || (n in b.timers && c.timers[n] == b.timers[n])
          || ((a.Fire? || a.Start?) && n in b.disk && c.timers[n] == b.disk[n] && Ahead(b.disk[n], Answer(a, n).now)))
    && (forall v: nat ::
          || c.executions[v] == b.executions[v]
          || (exists n <- b.disk :: b.disk[n].id == v && b.disk[n].content.Immediate?)
          || (fired.Some? && fired.value.id == v && c.executions[v] == b.executions[v] + 1))
    && (fired.Some? ==>
          && (exists n <- b.timers :: b.timers[n] == fired.value)
          && (forall n <- c.timers :: c.timers[n].id != fired.value.id))
  }

  lemma SameBooks(b: Books, a: Action)
    ensures Follows(b, b, a, None)
  {
  }

  /** Handling a file fits into an action that has this answer for it. */
  lemma HandledFollows(b: Books, c: Books, d: Books, a: Action, name: string)
    requires Follows(b, c, a, None) && (a.Fire? || a.Start?) && Handled(c, d, name, Answer(a, name))
    ensures Follows(b, d, a, None)
  {
    forall v: nat | d.executions[v] != b.executions[v]
      ensures exists n <- b.disk :: b.disk[n].id == v && b.disk[n].content.Immediate?
    {
      if d.executions[v] != c.executions[v] {
        assert name in b.disk && b.disk[name].id == v;
      }
    }
  }

  lemma FileHandled(disk0: map<string, Version>, disk: map<string, Version>, timers0: ByFile, timers: ByFile,
                    crons: ByFile,
                    loaded0: map<string, Version>, loaded: map<string, Version>, h0: History, h: History,
                    files: set<string>, name: string, o: Oracle)
    requires ScheduledIn(files, timers, crons, loaded) && (forall n <- timers0 :: n in loaded0)
    requires (forall n :: n != name ==> (n in timers <==> n in timers0)) && loaded - {name} == loaded0 - {name}
    requires name in files ==> name in disk0 && Stays(disk0[name], o) && loaded[name] == disk0[name]
    requires disk == disk0 || disk == disk0 - {name}
    requires h == h0 || (name in disk0 && disk0[name].content.Immediate?
                         && forall v: nat :: v != disk0[name].id ==> h.executions[v] == h0.executions[v])
    ensures Handled(BooksOf(disk0, timers0, loaded0, h0), BooksOf(disk, timers, loaded, h), name, o)
  {
    forall n | n in timers && n != name
      ensures n in timers0 && n in loaded && n in loaded0 && loaded[n] == loaded0[n]
    {
      assert n in loaded - {name};
    }
  }

  /** Every live handle is recorded under its file and every recorded handle is live: nothing is
      scheduled that could not be cancelled, and each file has at most one timer and one cron job. */
  ghost predicate RecordedIn(live: map<nat, Task>, timers: ByFile, crons: ByFile, debounces: ByFile,
                             loaded: map<string, Version>) {
    && (forall n <- timers :: n in loaded && timers[n] in live && live[timers[n]] == OneShotTask(n, loaded[n]))
    && (forall n <- crons :: n in loaded && crons[n] in live && live[crons[n]] == CronTask(n, loaded[n]))
    && (forall n <- debounces :: debounces[n] in live && live[debounces[n]] == Debounce(n))
    && (forall h <- live ::
          match live[h]
          case Debounce(n) => n in debounces && debounces[n] == h
          case OneShotTask(n, _) => n in timers && timers[n] == h
          case CronTask(n, _) => n in crons && crons[n] == h)
  }

  /** Among these files, exactly those loaded as one-shot have a timer and exactly those loaded as
      periodic have a cron job; nothing else has either. */
  ghost predicate ScheduledIn(files: set<string>, timers: ByFile, crons: ByFile, loaded: map<string, Version>) {
    && (forall n <- files :: n in loaded)
    && (forall n :: n in timers <==> n in files && loaded[n].content.OneShot?)
    && (forall n :: n in crons <==> n in files && loaded[n].content.Periodic?)
  }

  lemma TimerAdded(live: map<nat, Task>, timers: ByFile, crons: ByFile, debounces: ByFile, loaded: map<string, Version>,
      files: set<string>, name: string, handle: nat)
    requires RecordedIn(live, timers, crons, debounces, loaded) && ScheduledIn(files - {name}, timers, crons, loaded)
    requires name in files && name in loaded && loaded[name].content.OneShot? && handle !in live
    ensures RecordedIn(live[handle := OneShotTask(name, loaded[name])], timers[name := handle], crons, debounces,
                       loaded)
    ensures ScheduledIn(files, timers[name := handle], crons, loaded)
  {
  }

  lemma CronAdded(live: map<nat, Task>, timers: ByFile, crons: ByFile, debounces: ByFile, loaded: map<string, Version>,
      files: set<string>, name: string, handle: nat)
    requires RecordedIn(live, timers, crons, debounces, loaded) && ScheduledIn(files - {name}, timers, crons, loaded)
    requires name in files && name in loaded && loaded[name].content.Periodic? && handle !in live
    ensures RecordedIn(live[handle := CronTask(name, loaded[name])], timers, crons[name := handle], debounces, loaded)
    ensures ScheduledIn(files, timers, crons[name := handle], loaded)
  {
  }

  lemma DebounceAdded(live: map<nat, Task>, timers: ByFile, crons: ByFile, debounces: ByFile,
                      loaded: map<string, Version>,
      name: string, handle: nat)
    requires RecordedIn(live, timers, crons, debounces, loaded) && name !in debounces && handle !in live
    ensures RecordedIn(live[handle := Debounce(name)], timers, crons, debounces[name := handle], loaded)
  {
  }

  /** A handle leaves the event loop and the watcher's books together. */
  lemma TimerDropped(live: map<nat, Task>, timers: ByFile, crons: ByFile, debounces: ByFile,
                     loaded: map<string, Version>, name: string)
    requires RecordedIn(live, timers, crons, debounces, loaded) && name in timers
    ensures timers[name] in live && live[timers[name]] == OneShotTask(name, loaded[name])
    ensures RecordedIn(live - {timers[name]}, timers - {name}, crons, debounces, loaded)
  {
  }

  lemma CronDropped(live: map<nat, Task>, timers: ByFile, crons: ByFile, debounces: ByFile,
                    loaded: map<string, Version>, name: string)
    requires RecordedIn(live, timers, crons, debounces, loaded) && name in crons
    ensures crons[name] in live && live[crons[name]] == CronTask(name, loaded[name])
    ensures RecordedIn(live - {crons[name]}, timers, crons - {name}, debounces, loaded)
  {
  }

  lemma DebounceDropped(live: map<nat, Task>, timers: ByFile, crons: ByFile, debounces: ByFile,
                        loaded: map<string, Version>, name: string)
    requires RecordedIn(live, timers, crons, debounces, loaded) && name in debounces
    ensures debounces[name] in live && live[debounces[name]] == Debounce(name)
    ensures RecordedIn(live - {debounces[name]}, timers, crons, debounces - {name}, loaded)
  {
  }

  /** Every live handle is one the watcher has in its books. */
  lemma LiveIsRecorded(live: map<nat, Task>, timers: ByFile, crons: ByFile, debounces: ByFile,
                       loaded: map<string, Version>, h: nat)
    requires RecordedIn(live, timers, crons, debounces, loaded) && h in live
    ensures live[h].OneShotTask? ==> live[h].name in timers && timers[live[h].name] == h
    ensures live[h].CronTask? ==> live[h].name in crons && crons[live[h].name] == h
    ensures live[h].Debounce? ==> live[h].name in debounces && debounces[live[h].name] == h
  {
  }

  lemma ScheduleCancelled(files: set<string>, timers: ByFile, crons: ByFile, loaded: map<string, Version>, name: string)
    requires ScheduledIn(files, timers, crons, loaded)
    ensures ScheduledIn(files - {name}, timers - {name}, crons - {name}, loaded)
    ensures name in timers ==> name !in crons
    ensures name !in files ==> name !in timers && name !in crons
  {
  }

  /** A file that has no timer and no cron job can be loaded afresh or be forgotten. */
  lemma FileReloaded(live: map<nat, Task>, timers: ByFile, crons: ByFile, debounces: ByFile,
                     loaded: map<string, Version>,
      files: set<string>, name: string, version: Version)
    requires RecordedIn(live, timers, crons, debounces, loaded) && ScheduledIn(files - {name}, timers, crons, loaded)
    ensures RecordedIn(live, timers, crons, debounces, loaded[name := version])
    ensures ScheduledIn(files - {name}, timers, crons, loaded[name := version])
    ensures !version.content.OneShot? && !version.content.Periodic? ==>
            ScheduledIn(files + {name}, timers, crons, loaded[name := version])
  {
  }

  class EventsWatcher {
    const machine: Machine
    const startTime: int
    var timers: map<string, nat>
    var crons: map<string, nat>
    var debounceTimers: map<string, nat>
    var knownFiles: set<string>
    var watching: bool
    /** The version of each file that was loaded last. */
    ghost var loaded: map<string, Version>

    constructor (machine: Machine, startTime: int)
      requires machine.Valid() && machine.live == map[]
      ensures Valid() && !watching && this.machine == machine && this.startTime == startTime && timers == map[]
    {
      this.machine, this.startTime := machine, startTime;
      timers, crons, debounceTimers, knownFiles, watching, loaded := map[], map[], map[], {}, false, map[];
    }

    ghost predicate Recorded() reads `timers, `crons, `debounceTimers, `loaded, machine`live {
      RecordedIn(machine.live, timers, crons, debounceTimers, loaded)
    }

    ghost predicate Scheduled(files: set<string>) reads `timers, `crons, `loaded {
      ScheduledIn(files, timers, crons, loaded)
    }

    ghost predicate Consistent(files: set<string>)
      reads `timers, `crons, `debounceTimers, `loaded, machine`live, machine`nextHandle
    {
      machine.Handles() && Recorded() && Scheduled(files)
    }

    ghost predicate Valid() reads this, machine {
      && machine.Valid() && Consistent(knownFiles)
      && (!watching ==> machine.live == map[] && knownFiles == {})
    }

    /** What the watcher has scheduled by the time of day, what is on disk, and what has run. */
    ghost function Snapshot(): Books
      reads `timers, `loaded, machine`disk, machine`history
    {
      BooksOf(machine.disk, timers, loaded, machine.history)
    }

    /** The schedules of all files but this one are as they were. */
    twostate predicate OthersKept(name: string) reads this {
      && loaded - {name} == old(loaded) - {name}
      && (forall n :: n != name ==>
            (n in timers <==> n in old(timers)) && (n in timers ==> timers[n] == old(timers)[n]))
      && (forall n :: n != name ==> (n in crons <==> n in old(crons)) && (n in crons ==> crons[n] == old(crons)[n]))
      && knownFiles - {name} == old(knownFiles) - {name}
    }

    method CancelScheduled(name: string)
      requires machine.Valid() && Consistent(knownFiles)
      modifies this`timers, this`crons, machine`live
      ensures machine.Valid() && Consistent(knownFiles - {name}) && OthersKept(name)
    {
      hide RecordedIn, Ledger, Versions, ScheduledIn;
      ScheduleCancelled(knownFiles, timers, crons, loaded, name);
      assert name !in timers ==> timers - {name} == timers;
      assert name !in crons ==> crons - {name} == crons;
      if name in timers {
        TimerDropped(machine.live, timers, crons, debounceTimers, loaded, name);
        machine.Clear(timers[name]);
        timers := timers - {name};
      }
      if name in crons {
        CronDropped(machine.live, timers, crons, debounceTimers, loaded, name);
        machine.Clear(crons[name]);
        crons := crons - {name};
      }
    }

    method DeleteFile(name: string, o: Oracle)
      requires machine.Valid() && Consistent(knownFiles - {name})
      modifies this`knownFiles, machine`disk
      ensures machine.Valid() && Consistent(knownFiles) && knownFiles == old(knownFiles) - {name}
      ensures machine.disk == if o.unlinks then old(machine.disk) - {name} else old(machine.disk)
    {
      hide RecordedIn, ScheduledIn, Ledger, Versions;
      machine.Unlink(name, o.unlinks);
      knownFiles := knownFiles - {name};
      assert knownFiles == old(knownFiles) - {name};
    }

    /** An event runs. After an immediate or one-shot event the file it came from is deleted, whatever
        it holds by now and whether or not the queue had room. */
    method Execute(name: string, version: Version, o: Oracle, deleteAfter: bool)
      requires machine.Valid() && Consistent(if deleteAfter then knownFiles - {name} else knownFiles)
      requires deleteAfter ==> machine.MayRun(name, version)
      modifies this`knownFiles, machine`disk, machine`history
      ensures machine.Valid() && Consistent(knownFiles)
      ensures knownFiles == if deleteAfter then old(knownFiles) - {name} else old(knownFiles)
      ensures machine.disk == if deleteAfter && o.unlinks then old(machine.disk) - {name} else old(machine.disk)
      ensures machine.history == if deleteAfter
        then RanOnce(old(machine.history), version.id, o.accepts,
                     name in machine.disk && machine.disk[name].id == version.id)
        else RanAgain(old(machine.history), version.id, o.accepts)
    {
      hide Ledger, Versions, Unscheduled, RecordedIn, ScheduledIn, RanOnce, RanAgain;
      ghost var disk := machine.disk;
      var enqueued := o.accepts;
      if enqueued && deleteAfter {
        DeleteFile(name, o);
      } else if !enqueued {
        if deleteAfter {
          DeleteFile(name, o);
        }
      }
      if deleteAfter {
        LedgerRuns(disk, machine.live, machine.nextVersion, machine.history, name, version.id, o.accepts, machine.disk);
        machine.history := RanOnce(machine.history, version.id, o.accepts,
                                   name in machine.disk && machine.disk[name].id == version.id);
      } else {
        LedgerRunsAgain(disk, machine.live, machine.nextVersion, machine.history, version.id, o.accepts);
        machine.history := RanAgain(machine.history, version.id, o.accepts);
      }
    }

    predicate RunsNow(v: Version, o: Oracle) {
      v.content.Immediate? && o.stats && v.modified >= startTime
    }

    /** The file `name`, which held `v`, is as handling it must leave it. */
    ghost predicate Outcome(name: string, v: Version, o: Oracle, before: History)
      reads `timers, `crons, machine`disk, machine`live, machine`history
    {
      OutcomeIn(name, v, o, startTime, machine.disk, timers, crons, machine.live, machine.history, before)
    }

    lemma FileIsHandled(name: string, disk0: map<string, Version>, h0: History, o: Oracle, left: bool)
      requires Consistent(knownFiles) && name in disk0
      requires name in knownFiles <==> Stays(disk0[name], o)
      requires name in knownFiles ==> name in loaded && loaded[name] == disk0[name]
      requires machine.disk == if !Stays(disk0[name], o) && o.unlinks then disk0 - {name} else disk0
      requires machine.history == if RunsNow(disk0[name], o) then RanOnce(h0, disk0[name].id, o.accepts, left) else h0
      ensures Outcome(name, disk0[name], o, h0)
    {
    }

    /** What handling one file does to the books. */
    lemma FileInBooks(disk0: map<string, Version>, timers0: ByFile, loaded0: map<string, Version>, h0: History,
                      name: string, o: Oracle, left: bool)
      requires Consistent(knownFiles) && (forall n <- timers0 :: n in loaded0)
      requires forall n :: n != name ==> (n in timers <==> n in timers0)
      requires loaded - {name} == loaded0 - {name}
      requires name in knownFiles ==>
               name in disk0 && Stays(disk0[name], o) && name in loaded && loaded[name] == disk0[name]
      requires machine.disk == disk0 || machine.disk == disk0 - {name}
      requires machine.history == if name in disk0 && RunsNow(disk0[name], o)
                 then RanOnce(h0, disk0[name].id, o.accepts, left) else h0
      ensures Handled(BooksOf(disk0, timers0, loaded0, h0), Snapshot(), name, o)
    {
      FileHandled(disk0, machine.disk, timers0, timers, crons, loaded0, loaded, h0, machine.history,
                  knownFiles, name, o);
    }

    /** The version whose timer fires, if one does. */
    ghost function Fired(a: Action): Option<Version>
      reads machine`live
    {
      if a.Fire? && a.handle in machine.live && machine.live[a.handle].OneShotTask?
      then Some(machine.live[a.handle].version)
      else None
    }

    lemma TimersAreLoaded()
      requires Recorded()
      ensures forall n <- timers :: n in loaded
    {
    }

    method HandleImmediate(name: string, v: Version, o: Oracle)
      requires machine.Valid() && Consistent(knownFiles) && machine.MayRun(name, v) && v.content.Immediate?
      requires ScheduledIn(knownFiles - {name}, timers, crons, loaded)
      modifies this`knownFiles, machine`disk, machine`history
      ensures machine.Valid() && Consistent(knownFiles)
      ensures knownFiles == if Stays(v, o) then old(knownFiles) else old(knownFiles) - {name}
      ensures machine.disk == if !Stays(v, o) && o.unlinks then old(machine.disk) - {name} else old(machine.disk)
      ensures machine.history == if RunsNow(v, o)
        then RanOnce(old(machine.history), v.id, o.accepts, name in machine.disk && machine.disk[name].id == v.id)
        else old(machine.history)
      ensures machine.history.executions == if o.stats && v.modified >= startTime
                then old(machine.history).executions + multiset{v.id} else old(machine.history).executions
      ensures o.stats && o.unlinks ==> machine.disk == old(machine.disk) - {name}
    {
      RanOnceMeaning(machine.history, v.id, o.accepts);
      hide RecordedIn, ScheduledIn, Ledger, Versions, Unscheduled, RanOnce;
      if !o.stats {
        return;
      } else if v.modified < startTime {
        DeleteFile(name, o);
      } else {
        Execute(name, v, o, true);
      }
    }

    method HandleOneShot(name: string, v: Version, o: Oracle)
      requires machine.Valid() && Recorded() && Scheduled(knownFiles - {name}) && machine.MayRun(name, v)
      requires v.content.OneShot?
      requires name in knownFiles && name in loaded && loaded[name] == v && name !in timers
      modifies this`knownFiles, this`timers, machine`disk, machine`live, machine`nextHandle
      ensures machine.Valid() && Consistent(knownFiles) && OthersKept(name)
      ensures knownFiles == if Stays(v, o) then old(knownFiles) else old(knownFiles) - {name}
      ensures machine.disk == if !Stays(v, o) && o.unlinks then old(machine.disk) - {name} else old(machine.disk)
      ensures v.content.at != None && v.content.at.value <= o.now ==>
                && name !in timers && name !in knownFiles
                && machine.disk == (if o.unlinks then old(machine.disk) - {name} else old(machine.disk))
      ensures v.content.at == None || v.content.at.value > o.now ==>
                && name in timers && timers[name] in machine.live && machine.live[timers[name]] == OneShotTask(name, v)
                && name in knownFiles && machine.disk == old(machine.disk)
    {
      hide Ledger, Versions, Unscheduled, RecordedIn, ScheduledIn;
      if v.content.at.Some? && v.content.at.value <= o.now {
        DeleteFile(name, o);
        return;
      }
      TimerAdded(machine.live, timers, crons, debounceTimers, loaded, knownFiles, name, machine.nextHandle);
      var timer := machine.Start(OneShotTask(name, v));
      timers := timers[name := timer];
    }

    method HandlePeriodic(name: string, v: Version, o: Oracle)
      requires machine.Valid() && Recorded() && Scheduled(knownFiles - {name}) && machine.MayRun(name, v)
      requires v.content.Periodic?
      requires name in knownFiles && name in loaded && loaded[name] == v && name !in crons
      modifies this`knownFiles, this`crons, machine`disk, machine`live, machine`nextHandle
      ensures machine.Valid() && Consistent(knownFiles) && OthersKept(name)
      ensures knownFiles == if Stays(v, o) then old(knownFiles) else old(knownFiles) - {name}
      ensures machine.disk == if !Stays(v, o) && o.unlinks then old(machine.disk) - {name} else old(machine.disk)
      ensures v.content.validSchedule ==>
                && name in crons && crons[name] in machine.live && machine.live[crons[name]] == CronTask(name, v)
                && name in knownFiles && machine.disk == old(machine.disk)
      ensures !v.content.validSchedule ==>
                && name !in crons && name !in knownFiles
                && machine.disk == (if o.unlinks then old(machine.disk) - {name} else old(machine.disk))
    {
      hide Ledger, Versions, Unscheduled, RecordedIn, ScheduledIn;
      if !v.content.validSchedule {
        DeleteFile(name, o);
        return;
      }
      CronAdded(machine.live, timers, crons, debounceTimers, loaded, knownFiles, name, machine.nextHandle);
      var cron := machine.Start(CronTask(name, v));
      crons := crons[name := cron];
    }

    /** A file is read and scheduled, run or dropped; it is known afterwards exactly if it stays. */
    method HandleFile(name: string, o: Oracle)
      requires machine.Valid() && Consistent(knownFiles - {name})
      modifies this`knownFiles, this`timers, this`crons, this`loaded
      modifies machine`disk, machine`live, machine`nextHandle, machine`history
      ensures machine.Valid() && Consistent(knownFiles) && OthersKept(name)
      ensures var disk := old(machine.disk);
              var stays := name in disk && Stays(disk[name], o);
              && (name in knownFiles <==> stays)
              && (stays ==> loaded == old(loaded)[name := disk[name]])
              && machine.disk == (if !stays && o.unlinks then disk - {name} else disk)
              && machine.history == (if name in disk && RunsNow(disk[name], o)
                   then RanOnce(old(machine.history), disk[name].id, o.accepts, !o.unlinks) else old(machine.history))
      ensures name in old(machine.disk) ==> Outcome(name, old(machine.disk)[name], o, old(machine.history))
    {
      hide Ledger, Versions, Unscheduled, RecordedIn, ScheduledIn, RanOnce, OutcomeIn;
      ghost var disk, history := machine.disk, machine.history;
      if name !in machine.disk || machine.disk[name].content.Malformed? {
        DeleteFile(name, o);
        if name in disk {
          FileIsHandled(name, disk, history, o, !o.unlinks);
        }
        return;
      }
      var v := machine.disk[name];
      FreshMayRun(name);
      FileReloaded(machine.live, timers, crons, debounceTimers, loaded, knownFiles, name, v);
      knownFiles := knownFiles + {name};
      loaded := loaded[name := v];
      assert knownFiles - {name} == old(knownFiles) - {name};
      match v.content {
        case Immediate => HandleImmediate(name, v, o);
        case OneShot(_) => HandleOneShot(name, v, o);
        case Periodic(_) => HandlePeriodic(name, v, o);
      }
      FileIsHandled(name, disk, history, o, !o.unlinks);
    }

    /** What is on disk for a file without a schedule is scheduled nowhere. */
    lemma FreshMayRun(name: string)
      requires machine.Valid() && Consistent(knownFiles - {name}) && name in machine.disk
      ensures machine.MayRun(name, machine.disk[name])
      ensures name !in timers && name !in crons
    {
      forall h | h in machine.live && !machine.live[h].Debounce?
        ensures machine.live[h].version.id != machine.disk[name].id
      {
        LiveIsRecorded(machine.live, timers, crons, debounceTimers, loaded, h);
      }
    }

    method HandleDelete(name: string)
      requires machine.Valid() && Consistent(knownFiles)
      modifies this`knownFiles, this`timers, this`crons, machine`live
      ensures machine.Valid() && Consistent(knownFiles) && OthersKept(name) && name !in knownFiles
    {
      hide Ledger, Versions, RecordedIn, ScheduledIn;
      if name !in knownFiles { return; }
      CancelScheduled(name);
      knownFiles := knownFiles - {name};
    }

    /** A file that is gone is forgotten with its schedule; one that is there is scheduled anew. */
    method HandleFileChange(name: string, o: Oracle)
      requires machine.Valid() && Consistent(knownFiles)
      modifies this`knownFiles, this`timers, this`crons, this`loaded
      modifies machine`disk, machine`live, machine`nextHandle, machine`history
      ensures machine.Valid() && Consistent(knownFiles) && OthersKept(name)
      ensures var disk := old(machine.disk);
              && (name in knownFiles <==> name in disk && Stays(disk[name], o))
              && (name in knownFiles ==> loaded == old(loaded)[name := disk[name]])
              && machine.disk == (if name in disk && !Stays(disk[name], o) && o.unlinks then disk - {name} else disk)
              && machine.history == (if name in disk && RunsNow(disk[name], o)
                   then RanOnce(old(machine.history), disk[name].id, o.accepts, !o.unlinks) else old(machine.history))
      ensures name in old(machine.disk) ==> Outcome(name, old(machine.disk)[name], o, old(machine.history))
    {
      hide Ledger, Versions, RecordedIn, ScheduledIn, RanOnce, Stays, RunsNow, OutcomeIn;
      if name !in machine.disk {
        HandleDelete(name);
      } else if name in knownFiles {
        CancelScheduled(name);
        HandleFile(name, o);
      } else {
        assert knownFiles - {name} == knownFiles;
        HandleFile(name, o);
      }
    }

    /** The directory reports a change: whatever was about to be handled for the file waits again. */
    method OnChange(name: string)
      requires Valid()
      modifies this`debounceTimers, machine`live, machine`nextHandle
      ensures Valid()
      ensures watching && EndsWithJson(name) ==>
        && old(machine.nextHandle) !in old(machine.live)
        && debounceTimers == old(debounceTimers)[name := old(machine.nextHandle)]
        && machine.live == old(if name in debounceTimers then machine.live - {debounceTimers[name]} else machine.live)
                           [old(machine.nextHandle) := Debounce(name)]
      ensures !watching || !EndsWithJson(name) ==>
              debounceTimers == old(debounceTimers) && machine.live == old(machine.live)
    {
      hide Ledger, Versions, RecordedIn, ScheduledIn;
      if !watching || !EndsWithJson(name) { return; }
      if name in debounceTimers {
        DebounceDropped(machine.live, timers, crons, debounceTimers, loaded, name);
        machine.Clear(debounceTimers[name]);
        debounceTimers := debounceTimers - {name};
      }
      DebounceAdded(machine.live, timers, crons, debounceTimers, loaded, name, machine.nextHandle);
      var timer := machine.Start(Debounce(name));
      debounceTimers := debounceTimers[name := timer];
    }

    /** A file has at most one live schedule, timer or cron job, and only files that are known have one. */
    lemma OneSchedulePerFile(g: nat, h: nat)
      requires Valid() && g in machine.live && h in machine.live
      requires !machine.live[g].Debounce? && !machine.live[h].Debounce? && machine.live[g].name == machine.live[h].name
      ensures g == h && machine.live[g].name in knownFiles
      ensures machine.live[g].version == loaded[machine.live[g].name]
    {
      LiveIsRecorded(machine.live, timers, crons, debounceTimers, loaded, g);
      LiveIsRecorded(machine.live, timers, crons, debounceTimers, loaded, h);
    }

    /** A debounce timer fires: the file is looked at once. */
    method FireDebounce(h: nat, o: Oracle)
      requires Valid() && h in machine.live && machine.live[h].Debounce?
      modifies this`debounceTimers, this`knownFiles, this`timers, this`crons, this`loaded
      modifies machine`disk, machine`live, machine`nextHandle, machine`history
      ensures Valid() && OthersKept(old(machine.live[h].name)) && watching
      ensures var name, disk := old(machine.live[h].name), old(machine.disk);
              && debounceTimers.Keys == old(debounceTimers.Keys) - {name}
              && (name in knownFiles <==> name in disk && Stays(disk[name], o))
              && (name in knownFiles ==> loaded == old(loaded)[name := disk[name]])
              && machine.disk == (if name in disk && !Stays(disk[name], o) && o.unlinks then disk - {name} else disk)
              && machine.history == (if name in disk && RunsNow(disk[name], o)
                   then RanOnce(old(machine.history), disk[name].id, o.accepts, !o.unlinks) else old(machine.history))
      ensures var name, disk := old(machine.live[h].name), old(machine.disk);
              name in disk ==> Outcome(name, disk[name], o, old(machine.history))
    {
      hide Ledger, Versions, RecordedIn, ScheduledIn, RanOnce, Stays, RunsNow, OutcomeIn;
      var name := machine.live[h].name;
      LiveIsRecorded(machine.live, timers, crons, debounceTimers, loaded, h);
      DebounceDropped(machine.live, timers, crons, debounceTimers, loaded, name);
      machine.Clear(h);
      debounceTimers := debounceTimers - {name};
      HandleFileChange(name, o);
    }

    lemma TimerOf(name: string)
      requires Valid() && name in knownFiles && name in loaded && loaded[name].content.OneShot?
      ensures name in timers && timers[name] in machine.live
      ensures machine.live[timers[name]] == OneShotTask(name, loaded[name])
    {
    }

    /** A one-shot timer fires: the version it was set for runs, once, and the watcher forgets the file. */
    method FireTimer(h: nat, o: Oracle)
      requires Valid() && h in machine.live && machine.live[h].OneShotTask?
      modifies this`timers, this`knownFiles, machine`disk, machine`live, machine`history
      ensures Valid() && OthersKept(old(machine.live[h].name)) && watching
      ensures var name, v := old(machine.live[h].name), old(machine.live[h].version);
              && name !in knownFiles && name !in timers && name !in crons
              && machine.disk == (if o.unlinks then old(machine.disk) - {name} else old(machine.disk))
              && machine.history == RanOnce(old(machine.history), v.id, o.accepts,
                                            name in machine.disk && machine.disk[name].id == v.id)
    {
      hide Ledger, Versions, Unscheduled, RecordedIn, ScheduledIn, RanOnce;
      var name, v := machine.live[h].name, machine.live[h].version;
      TimerMayRun(h);
      ScheduleCancelled(knownFiles, timers, crons, loaded, name);
      LiveIsRecorded(machine.live, timers, crons, debounceTimers, loaded, h);
      TimerDropped(machine.live, timers, crons, debounceTimers, loaded, name);
      machine.Clear(h);
      timers := timers - {name};
      assert crons - {name} == crons;
      Execute(name, v, o, true);
    }

    lemma TimerMayRun(h: nat)
      requires machine.Valid() && Consistent(knownFiles) && h in machine.live && machine.live[h].OneShotTask?
      ensures var v := machine.live[h].version;
              && v.id < machine.nextVersion && machine.history.executions[v.id] == machine.history.failures[v.id]
              && Unscheduled(machine.disk, machine.live - {h}, machine.live[h].name, v.id)
    {
      forall k | k in machine.live && !machine.live[k].Debounce?
        && machine.live[k].version.id == machine.live[h].version.id
        ensures k == h
      {
        LiveIsRecorded(machine.live, timers, crons, debounceTimers, loaded, h);
        LiveIsRecorded(machine.live, timers, crons, debounceTimers, loaded, k);
      }
    }

    /** A cron job comes round: the version runs and stays scheduled. */
    method FireCron(h: nat, o: Oracle)
      requires Valid() && h in machine.live && machine.live[h].CronTask?
      modifies this`knownFiles, machine`disk, machine`history
      ensures Valid() && watching
      ensures knownFiles == old(knownFiles) && machine.disk == old(machine.disk)
      ensures machine.history == RanAgain(old(machine.history), machine.live[h].version.id, o.accepts)
      ensures var v, before := machine.live[h].version.id, old(machine.history);
              && machine.history.recurring == before.recurring + multiset{v}
              && machine.history.executions == before.executions
              && machine.history.enqueued == (if o.accepts then before.enqueued + multiset{v} else before.enqueued)
    {
      CronRuns(machine.history, machine.live[h].version.id, o.accepts);
      hide Ledger, Versions, RecordedIn, ScheduledIn, RanAgain;
      Execute(machine.live[h].name, machine.live[h].version, o, false);
    }

    /** All event files but `files` have been handled, and those that stay are known. */
    ghost predicate Scanned(disk: map<string, Version>, files: set<string>, known: set<string>,
                            current: map<string, Version>, oracles: string -> Oracle)
    {
      && files <= (set n | n in disk && EndsWithJson(n))
      && (forall n <- files :: n in current && current[n] == disk[n])
      && known == (set n | n in disk && EndsWithJson(n) && n !in files && Stays(disk[n], oracles(n)))
    }

    lemma NothingScanned(disk: map<string, Version>, oracles: string -> Oracle)
      ensures Scanned(disk, set n | n in disk && EndsWithJson(n), {}, disk, oracles)
    {
    }

    lemma ScanStep(disk: map<string, Version>, files: set<string>, known: set<string>, current: map<string, Version>,
                   oracles: string -> Oracle, name: string, next: set<string>, after: map<string, Version>)
      requires Scanned(disk, files, known, current, oracles) && name in files
      requires next - {name} == known - {name} && (name in next <==> Stays(disk[name], oracles(name)))
      requires after == current || after == current - {name}
      ensures Scanned(disk, files - {name}, next, after, oracles)
    {
      hide Stays, EndsWithJson;
      forall n
        ensures n in next <==> n in disk && EndsWithJson(n) && n !in files - {name} && Stays(disk[n], oracles(n))
      {
        if n != name {
          assert n in next <==> n in known by {
            assert n in next - {name} <==> n in next;
            assert n in known - {name} <==> n in known;
          }
        }
      }
    }

    lemma NameToScan(disk: map<string, Version>, files: set<string>, known: set<string>, current: map<string, Version>,
                     oracles: string -> Oracle, name: string)
      requires Scanned(disk, files, known, current, oracles) && name in files
      ensures name in disk && name in current && current[name] == disk[name] && known - {name} == known
    {
    }

    ghost predicate AllOutcomes(disk: map<string, Version>, files: set<string>, oracles: string -> Oracle,
                                before: History)
      reads `timers, `crons, machine`disk, machine`live, machine`history
    {
      Outcomes(disk, files, oracles, startTime, machine.disk, timers, crons, machine.live, machine.history, before)
    }

    lemma NoOutcomes(oracles: string -> Oracle)
      ensures AllOutcomes(machine.disk, (set n | n in machine.disk && EndsWithJson(n)), oracles, machine.history)
    {
    }

    /** The next file of a scan is handled. */
    method ScanFile(name: string, oracles: string -> Oracle, ghost disk: map<string, Version>, ghost files: set<string>,
                    ghost history: History, ghost books: Books, ghost refuses: bool)
      requires machine.Valid() && Consistent(knownFiles) && name in files
      requires forall m <- disk, n <- disk :: disk[m].id == disk[n].id ==> m == n
      requires (exists n :: !oracles(n).unlinks) ==> refuses
      requires Scanned(disk, files, knownFiles, machine.disk, oracles)
      requires FailedOnce(history, machine.history, disk, files, refuses)
      requires Follows(books, Snapshot(), Action.Start(true, oracles), None)
      requires AllOutcomes(disk, files, oracles, history)
      modifies this`knownFiles, this`timers, this`crons, this`loaded
      modifies machine`disk, machine`live, machine`nextHandle, machine`history
      ensures machine.Valid() && Consistent(knownFiles)
      ensures Scanned(disk, files - {name}, knownFiles, machine.disk, oracles)
      ensures FailedOnce(history, machine.history, disk, files - {name}, refuses)
      ensures Follows(books, Snapshot(), Action.Start(true, oracles), None)
      ensures AllOutcomes(disk, files - {name}, oracles, history)
    {
      hide Ledger, Versions, RecordedIn, ScheduledIn, RanOnce, Stays, RunsNow;
      hide FailedOnce, Scanned, Follows, BooksOf, Handled, OutcomeIn, Outcomes;
      NameToScan(disk, files, knownFiles, machine.disk, oracles, name);
      TimersAreLoaded();
      ghost var before, timers0, loaded0 := Snapshot(), timers, loaded;
      ghost var known, now, current := knownFiles, machine.history, machine.disk;
      ghost var live, crons0 := machine.live, crons;
      HandleFile(name, oracles(name));
      OthersTasks(live, timers0, crons0, debounceTimers, loaded0,
                  machine.live, timers, crons, debounceTimers, loaded, name);
      OtherVersions(disk, name);
      OthersDidNotRun(now, machine.history, disk[name].id, oracles(name));
      OutcomesStep(disk, files, oracles, startTime, current, timers0, crons0, live, now, history, name,
                   machine.disk, timers, crons, machine.live, machine.history);
      FileInBooks(current, timers0, loaded0, now, name, oracles(name), !oracles(name).unlinks);
      HandledFollows(books, before, Snapshot(), Action.Start(true, oracles), name);
      FailedOnceStep(history, now, machine.history, disk, files, name, oracles(name), refuses);
      ScanStep(disk, files, known, current, oracles, name, knownFiles, machine.disk);
    }

    /** Handles the files that are there, in any order. */
    method ScanExisting(oracles: string -> Oracle)
      requires machine.Valid() && Consistent(knownFiles) && knownFiles == {}
      modifies this`knownFiles, this`timers, this`crons, this`loaded
      modifies machine`disk, machine`live, machine`nextHandle, machine`history
      ensures machine.Valid() && Consistent(knownFiles)
      ensures Scanned(old(machine.disk), {}, knownFiles, machine.disk, oracles)
      ensures FailedOnce(old(machine.history), machine.history, old(machine.disk), {}, exists n :: !oracles(n).unlinks)
      ensures Follows(old(Snapshot()), Snapshot(), Action.Start(true, oracles), None)
      ensures AllOutcomes(old(machine.disk), {}, oracles, old(machine.history))
    {
      ghost var history, disk, refuses := machine.history, machine.disk, exists n :: !oracles(n).unlinks;
      hide Ledger, Versions, RecordedIn, ScheduledIn, FailedOnce, Scanned, Follows, BooksOf, Outcomes;
      var files := set n | n in machine.disk && EndsWithJson(n);
      OneNamePerVersion(disk, machine.live, machine.nextVersion);
      NoneFailed(history, disk, files, refuses);
      NothingScanned(disk, oracles);
      NoOutcomes(oracles);
      ghost var books := Snapshot();
      SameBooks(books, Action.Start(true, oracles));
      while files != {}
        invariant machine.Valid() && Consistent(knownFiles)
        invariant Scanned(disk, files, knownFiles, machine.disk, oracles)
        invariant FailedOnce(history, machine.history, disk, files, refuses)
        invariant Follows(books, Snapshot(), Action.Start(true, oracles), None)
        invariant AllOutcomes(disk, files, oracles, history)
        decreases files
      {
        var name :| name in files;
        ScanFile(name, oracles, disk, files, history, books, refuses);
        files := files - {name};
      }
    }

    /** Handles the files that are there and begins to watch. */
    method Start(readable: bool, oracles: string -> Oracle)
      requires Valid() && !watching
      modifies this, machine`disk, machine`live, machine`nextHandle, machine`history
      ensures Valid() && watching
      ensures !readable ==> knownFiles == {} && machine.live == map[] && machine.disk == old(machine.disk)
      ensures readable ==>
        knownFiles == set n | n in old(machine.disk) && EndsWithJson(n) && Stays(old(machine.disk)[n], oracles(n))
      ensures FailedOnce(old(machine.history), machine.history, old(machine.disk), {},
                         readable && exists n :: !oracles(n).unlinks)
      ensures !readable ==> machine.history == old(machine.history)
      ensures Follows(old(Snapshot()), Snapshot(), Action.Start(readable, oracles), None)
      ensures readable ==> forall n <- old(machine.disk) :: EndsWithJson(n) ==>
                Outcome(n, old(machine.disk)[n], oracles(n), old(machine.history))
    {
      hide Ledger, Versions, RecordedIn, ScheduledIn, RanOnce, Stays, RunsNow, FailedOnce, Follows, BooksOf, OutcomeIn;
      if readable {
        ScanExisting(oracles);
      } else {
        SameBooks(Snapshot(), Action.Start(readable, oracles));
        NoneFailed(machine.history, machine.disk, {}, false);
      }
      watching := true;
    }

    /** Afterwards nothing is live: no timer, cron job or debounce can run anything any more. */
    method Stop()
      requires Valid()
      modifies this, machine`live
      ensures Valid() && !watching && machine.live == map[] && knownFiles == {}
      ensures timers == crons == debounceTimers == map[]
    {
      hide Ledger, Versions, RecordedIn, ScheduledIn;
      watching := false;
      machine.ClearAll(debounceTimers);
      machine.ClearAll(timers);
      machine.ClearAll(crons);
      ghost var live := old(machine.live);
      forall h | h in live
        ensures h in debounceTimers.Values + timers.Values + crons.Values
      {
        LiveIsRecorded(live, timers, crons, debounceTimers, loaded, h);
      }
      assert machine.live == map[];
      debounceTimers, timers, crons := map[], map[], map[];
      knownFiles := {};
      NothingScheduled(loaded);
    }
  }

  /** A timer that fires leaves no other timer for its version. */
  lemma TimerFollows(live: map<nat, Task>, timers: ByFile, crons: ByFile, debounces: ByFile,
                     loaded: map<string, Version>,
                     disk: map<string, Version>, next: nat, h: nat, o: Oracle, history: History,
                     after: map<string, Version>, left: bool)
    requires RecordedIn(live, timers, crons, debounces, loaded) && Versions(disk, live, next)
    requires h in live && live[h].OneShotTask? && (after == disk || after == disk - {live[h].name})
    ensures Follows(BooksOf(disk, timers, loaded, history),
                    BooksOf(after, timers - {live[h].name}, loaded,
                            RanOnce(history, live[h].version.id, o.accepts, left)),
                    Fire(h, o), Some(live[h].version))
  {
    var name, v := live[h].name, live[h].version;
    LiveIsRecorded(live, timers, crons, debounces, loaded, h);
    assert loaded[name] == v;
    assert BooksOf(disk, timers, loaded, history).timers[name] == v;
    forall n | n in timers && n != name
      ensures loaded[n].id != v.id
    {
      assert live[timers[n]] == OneShotTask(n, loaded[n]);
    }
  }

  lemma NothingScheduled(loaded: map<string, Version>)
    ensures RecordedIn(map[], map[], map[], map[], loaded) && ScheduledIn({}, map[], map[], loaded)
  {
  }

  predicate EndsWithJson(name: string) {
    |name| >= 5 && name[|name| - 5..] == ".json"
  }

  lemma EndsWithJsonMeaning(name: string)
    ensures EndsWithJson(name) <==> exists stem :: name == stem + ".json"
  {
    if EndsWithJson(name) {
      assert name == name[..|name| - 5] + ".json";
    }
  }

  /** The world refuses a deletion while this happens. */
  ghost predicate Denies(a: Action) {
    match a
    case Fire(_, o) => !o.unlinks
    case Start(readable, oracles) => readable && exists n :: !oracles(n).unlinks
    case _ => false
  }

  ghost function Denials(actions: seq<Action>, k: nat): nat
    requires k <= |actions|
  {
    if k == 0 then 0 else Denials(actions, k - 1) + (if Denies(actions[k - 1]) then 1 else 0)
  }

  /** A live handle fires. */
  method FireHandle(w: EventsWatcher, h: nat, o: Oracle)
    requires w.Valid() && h in w.machine.live
    modifies w, w.machine
    ensures w.Valid()
    ensures forall v: nat ::
              w.machine.history.failures[v] <= old(w.machine.history.failures[v]) + (if o.unlinks then 0 else 1)
    ensures Follows(old(w.Snapshot()), w.Snapshot(), Fire(h, o), old(w.Fired(Fire(h, o))))
    ensures var task, disk := old(w.machine.live[h]), old(w.machine.disk);
            task.Debounce? && task.name in disk ==> w.Outcome(task.name, disk[task.name], o, old(w.machine.history))
    ensures w.machine.nextVersion == old(w.machine.nextVersion)
  {
    hide Ledger, Versions, RecordedIn, ScheduledIn, RanOnce, RanAgain, Follows, Handled, BooksOf, Stays, OutcomeIn;
    ghost var history, disk, timers, loaded, books :=
      w.machine.history, w.machine.disk, w.timers, w.loaded, w.Snapshot();
    w.TimersAreLoaded();
    SameBooks(books, Fire(h, o));
    match w.machine.live[h]
    case Debounce(name) =>
      w.FireDebounce(h, o);
      w.FileInBooks(disk, timers, loaded, history, name, o, !o.unlinks);
      HandledFollows(books, books, w.Snapshot(), Fire(h, o), name);
      if name in disk {
        FailuresAfter(history, disk[name].id, o.accepts, !o.unlinks);
      }
    case OneShotTask(name, v) =>
      ghost var live, crons, debounces, next := w.machine.live, w.crons, w.debounceTimers, w.machine.nextVersion;
      w.FireTimer(h, o);
      assert w.timers == timers - {name};
      ghost var left := name in w.machine.disk && w.machine.disk[name].id == v.id;
      TimerFollows(live, timers, crons, debounces, loaded, disk, next, h, o, history, w.machine.disk, left);
      FailuresAfter(history, v.id, o.accepts, left);
    case CronTask(_, v) =>
      w.FireCron(h, o);
      RanAgainBooks(disk, timers, loaded, history, v.id, o.accepts);
      FailuresAfter(history, v.id, o.accepts, false);
  }

  lemma RanAgainBooks(disk: map<string, Version>, timers: ByFile, loaded: map<string, Version>, h: History, v: nat,
                      accepted: bool)
    ensures BooksOf(disk, timers, loaded, RanAgain(h, v, accepted)) == BooksOf(disk, timers, loaded, h)
  {
  }

  /** A handle that is no longer live does nothing; the watcher is not started twice. */
  method Perform(w: EventsWatcher, a: Action)
    requires w.Valid()
    modifies w, w.machine
    ensures w.Valid()
    ensures a.Stop? ==> w.machine.live == map[] && !w.watching
    ensures a.Start? ==> w.watching
    ensures a.Remove? ==> w.machine.disk == old(w.machine.disk) - {a.name}
    ensures a.Notify? && old(w.watching) && EndsWithJson(a.name) ==> old(w.machine.nextHandle) in w.machine.live
    ensures a.Fire? && a.handle in old(w.machine.live) ==>
              var task, disk := old(w.machine.live)[a.handle], old(w.machine.disk);
              task.Debounce? && task.name in disk ==> w.Outcome(task.name, disk[task.name], a.o, old(w.machine.history))
    ensures a.Fire? && a.handle !in old(w.machine.live) ==> w.machine.history == old(w.machine.history)
    ensures forall v: nat ::
              w.machine.history.failures[v] <= old(w.machine.history.failures[v]) + (if Denies(a) then 1 else 0)
    ensures w.machine.nextVersion == old(w.machine.nextVersion) + (if a.Write? then 1 else 0)
    ensures if a.Write?
      then w.Snapshot() == BooksOf(old(w.machine.disk[a.name := Version(w.machine.nextVersion, a.content, a.modified)]),
                                   old(w.timers), old(w.loaded), old(w.machine.history))
      else Follows(old(w.Snapshot()), w.Snapshot(), a, old(w.Fired(a)))
  {
    hide Ledger, Versions, RecordedIn, ScheduledIn, RanOnce, RanAgain, Follows, BooksOf, OutcomeIn;
    SameBooks(w.Snapshot(), a);
    match a
    case Write(name, content, modified) => w.machine.Write(name, content, modified);
    case Remove(name) =>
      ghost var disk := w.machine.disk;
      w.machine.Remove(name);
      FileGone(disk, w.timers, w.loaded, w.machine.history, name, a);
    case Notify(name) => w.OnChange(name);
    case Fire(h, o) =>
      if h in w.machine.live {
        FireHandle(w, h, o);
      }
    case Start(readable, oracles) =>
      if !w.watching {
        w.Start(readable, oracles);
      }
    case Stop =>
      ghost var disk, timers, loaded := w.machine.disk, w.timers, w.loaded;
      w.Stop();
      TimersGone(disk, timers, loaded, w.loaded, w.machine.history, a);
  }

  lemma FileGone(disk: map<string, Version>, timers: ByFile, loaded: map<string, Version>, h: History, name: string,
                 a: Action)
    ensures Follows(BooksOf(disk, timers, loaded, h), BooksOf(disk - {name}, timers, loaded, h), a, None)
  {
  }

  lemma TimersGone(disk: map<string, Version>, timers: ByFile, loaded: map<string, Version>,
                   after: map<string, Version>,
                   h: History, a: Action)
    ensures Follows(BooksOf(disk, timers, loaded, h), BooksOf(disk, map[], after, h), a, None)
  {
  }

  /** Over every run the books and the event loop agree, and a version of an immediate or one-shot
      event runs at most once, plus once for each action during which the world refused a deletion; if
      it never refuses one, no version runs twice. */
  method Run(machine: Machine, startTime: int, actions: seq<Action>) returns (w: EventsWatcher)
    requires machine.Valid() && machine.live == map[]
    modifies machine
    ensures fresh(w) && w.machine == machine && w.Valid()
    ensures forall v: nat :: machine.history.executions[v] <= machine.history.failures[v] + 1
    ensures forall v: nat ::
              machine.history.executions[v] <= old(machine.history.failures[v]) + Denials(actions, |actions|) + 1
    ensures forall v: nat :: machine.history.enqueued[v] <= machine.history.executions[v] + machine.history.recurring[v]
  {
    hide Versions, RunsMatch, RecordedIn, ScheduledIn, Follows, OutcomeIn, BooksOf;
    w := new EventsWatcher(machine, startTime);
    ghost var failures := machine.history.failures;
    for k := 0 to |actions|
      invariant w.Valid() && w.machine == machine && fresh(w)
      invariant forall v: nat :: machine.history.failures[v] <= failures[v] + Denials(actions, k)
    {
      Perform(w, actions[k]);
    }
  }

  // ---- One-shot events whose date can be read

  /** `dated` has the version's date exactly if it is a one-shot event with one that can be read. */
  ghost predicate DatedIn(v: Version, dated: map<nat, int>) {
    if v.content.OneShot? && v.content.at.Some? then v.id in dated && dated[v.id] == v.content.at.value
    else v.id !in dated
  }

  ghost predicate AllDated(versions: set<Version>, dated: map<nat, int>, next: nat) {
    (forall v <- versions :: v.id < next && DatedIn(v, dated)) && forall id <- dated :: id < next
  }

  /** The versions that the first k actions write. */
  ghost function Written(actions: seq<Action>, k: nat, next: nat): (vs: set<Version>)
    requires k <= |actions|
  {
    if k == 0 then {}
    else
      var a := actions[k - 1];
      Written(actions, k - 1, next)
      + if a.Write? then {Version(next + Writes(actions, k - 1), a.content, a.modified)} else {}
  }

  ghost function Writes(actions: seq<Action>, k: nat): nat
    requires k <= |actions|
  {
    if k == 0 then 0 else Writes(actions, k - 1) + if actions[k - 1].Write? then 1 else 0
  }

  /** Every dated version has not run since, or has run once, when its date was over, and has no timer. */
  ghost predicate OnTime(b: Books, dated: map<nat, int>, before: multiset<nat>, now: int) {
    && (forall n <- b.disk :: DatedIn(b.disk[n], dated))
    && (forall n <- b.timers :: DatedIn(b.timers[n], dated))
    && (forall v <- dated ::
          || b.executions[v] == before[v]
          || (b.executions[v] == before[v] + 1 && dated[v] <= now && forall n <- b.timers :: b.timers[n].id != v))
  }

  /** The world tells a time between these two whenever it is asked during the action. */
  ghost predicate During(a: Action, from: int, to: int) {
    (a.Fire? || a.Start?) ==> forall name :: from <= Answer(a, name).now <= to
  }

  /** No timer fires before the date it was set for. */
  predicate Due(v: Version, now: int) {
    v.content.OneShot? && v.content.at.Some? ==> v.content.at.value <= now
  }

  lemma OnTimeStep(b: Books, c: Books, a: Action, fired: Option<Version>, dated: map<nat, int>, before: multiset<nat>,
                   from: int, to: int)
    requires OnTime(b, dated, before, from) && Follows(b, c, a, fired) && During(a, from, to) && from <= to
    requires fired.Some? ==> a.Fire? && Due(fired.value, a.o.now)
    ensures OnTime(c, dated, before, to)
  {
    forall v | v in dated
      ensures c.executions[v] == before[v]
           || (c.executions[v] == before[v] + 1 && dated[v] <= to && forall n <- c.timers :: c.timers[n].id != v)
    {
      DatedDoesNotRun(b, dated, v);
      if c.executions[v] != b.executions[v] {
        var n :| n in b.timers && b.timers[n] == fired.value;
        assert fired.value.id == v && DatedIn(b.timers[n], dated);
        assert Answer(a, "").now == a.o.now;
      } else if b.executions[v] != before[v] {
        NoNewTimer(b, c, a, fired, dated, v, from, to);
      }
    }
  }

  lemma DatedDoesNotRun(b: Books, dated: map<nat, int>, v: nat)
    requires v in dated && forall n <- b.disk :: DatedIn(b.disk[n], dated)
    ensures forall n <- b.disk :: b.disk[n].id == v ==> !b.disk[n].content.Immediate?
  {
  }

  /** A version whose date is over gets no timer any more. */
  lemma NoNewTimer(b: Books, c: Books, a: Action, fired: Option<Version>, dated: map<nat, int>, v: nat, from: int,
                   to: int)
    requires Follows(b, c, a, fired) && During(a, from, to) && v in dated && dated[v] <= from
    requires (forall n <- b.disk :: DatedIn(b.disk[n], dated)) && forall n <- b.timers :: b.timers[n].id != v
    ensures forall n <- c.timers :: c.timers[n].id != v
  {
  }

  /** A new version is on time, having never run. */
  lemma OnTimeWritten(b: Books, dated: map<nat, int>, before: multiset<nat>, now: int, name: string, v: Version)
    requires OnTime(b, dated, before, now) && v.id !in dated && b.executions[v.id] == before[v.id]
    requires forall n <- b.disk :: b.disk[n].id != v.id
    requires forall n <- b.timers :: b.timers[n].id != v.id
    ensures OnTime(b.(disk := b.disk[name := v]), WithDate(dated, v), before, now)
  {
  }

  function WithDate(dated: map<nat, int>, v: Version): map<nat, int> {
    if v.content.OneShot? && v.content.at.Some? then dated[v.id := v.content.at.value] else dated
  }

  /** A timer that is not due does not fire. */
  method PerformDue(w: EventsWatcher, a: Action)
    requires w.Valid()
    modifies w, w.machine
    ensures w.Valid()
    ensures w.machine.nextVersion == old(w.machine.nextVersion) + (if a.Write? then 1 else 0)
    ensures if a.Write?
      then w.Snapshot() == BooksOf(old(w.machine.disk[a.name := Version(w.machine.nextVersion, a.content, a.modified)]),
                                   old(w.timers), old(w.loaded), old(w.machine.history))
      else exists fired: Option<Version> ::
        && Follows(old(w.Snapshot()), w.Snapshot(), a, fired)
        && (fired.Some? ==> a.Fire? && Due(fired.value, a.o.now))
  {
    hide Follows, BooksOf, Ledger, Versions, RecordedIn, ScheduledIn;
    ghost var fired := w.Fired(a);
    if a.Fire? && a.handle in w.machine.live && w.machine.live[a.handle].OneShotTask?
       && !Due(w.machine.live[a.handle].version, a.o.now) {
      SameBooks(w.Snapshot(), a);
      return;
    }
    Perform(w, a);
  }

  /** Ids that are still to come belong to nothing and have not run. */
  lemma NothingAhead(w: EventsWatcher)
    requires w.Valid()
    ensures forall n <- w.Snapshot().disk :: w.Snapshot().disk[n].id < w.machine.nextVersion
    ensures forall n <- w.Snapshot().timers :: w.Snapshot().timers[n].id < w.machine.nextVersion
    ensures NotYetRun(w.machine.history, w.machine.nextVersion)
  {
    hide Ledger;
    LedgerAhead(w.machine.disk, w.machine.live, w.machine.nextVersion, w.machine.history);
    forall n | n in w.timers
      ensures n in w.loaded && w.loaded[n].id < w.machine.nextVersion
    {
      assert w.machine.live[w.timers[n]] == OneShotTask(n, w.loaded[n]);
    }
  }

  ghost predicate NotYetRun(h: History, next: nat) {
    forall v: nat :: v >= next ==> h.executions[v] == 0
  }

  lemma LedgerAhead(disk: map<string, Version>, live: map<nat, Task>, next: nat, h: History)
    requires Ledger(disk, live, next, h)
    ensures NotYetRun(h, next)
  {
  }

  lemma DatesOnDisk(disk: map<string, Version>, live: map<nat, Task>, next: nat) returns (dated: map<nat, int>)
    requires Versions(disk, live, next)
    ensures AllDated(disk.Values, dated, next) && forall n <- disk :: DatedIn(disk[n], dated)
  {
    dated := map n | n in disk && disk[n].content.OneShot? && disk[n].content.at.Some? ::
               disk[n].id := disk[n].content.at.value;
  }

  lemma DatedWritten(versions: set<Version>, dated: map<nat, int>, next: nat, v: Version)
    requires AllDated(versions, dated, next) && v.id == next
    ensures AllDated(versions + {v}, WithDate(dated, v), next + 1)
  {
  }

  lemma DatedMore(versions: set<Version>, dated: map<nat, int>, next: nat, later: nat)
    requires AllDated(versions, dated, next) && next <= later
    ensures AllDated(versions, dated, later)
  {
  }

  /** One action of a run on time. */
  method PerformOnTime(w: EventsWatcher, a: Action, ghost versions: set<Version>, ghost dated: map<nat, int>,
                       ghost before: History, ghost from: int, ghost to: int)
    returns (ghost v: Version, ghost dated': map<nat, int>)
    requires w.Valid() && During(a, from, to) && from <= to
    requires AllDated(versions, dated, w.machine.nextVersion) && OnTime(w.Snapshot(), dated, before.executions, from)
    requires NotYetRun(before, w.machine.nextVersion)
    modifies w, w.machine
    ensures w.Valid() && OnTime(w.Snapshot(), dated', before.executions, to)
    ensures w.machine.nextVersion == old(w.machine.nextVersion) + (if a.Write? then 1 else 0)
    ensures a.Write? ==> v == Version(old(w.machine.nextVersion), a.content, a.modified)
    ensures AllDated(if a.Write? then versions + {v} else versions, dated', w.machine.nextVersion)
  {
    hide OnTime, Follows, BooksOf, Ledger, Versions, RecordedIn, ScheduledIn, AllDated, During;
    ghost var b, next := w.Snapshot(), w.machine.nextVersion;
    v := if a.Write? then Version(next, a.content, a.modified) else Version(next, Malformed, 0);
    NothingAhead(w);
    BooksWritten(w.machine.disk, w.timers, w.loaded, w.machine.history, if a.Write? then a.name else "", v);
    PerformDue(w, a);
    if a.Write? {
      NextUndated(versions, dated, next);
      OnTimeWritten(b, dated, before.executions, from, a.name, v);
      OnTimeLater(w.Snapshot(), WithDate(dated, v), before.executions, from, to);
      DatedWritten(versions, dated, next, v);
      dated' := WithDate(dated, v);
    } else {
      ghost var fired: Option<Version> :|
        Follows(b, w.Snapshot(), a, fired) && (fired.Some? ==> a.Fire? && Due(fired.value, a.o.now));
      OnTimeStep(b, w.Snapshot(), a, fired, dated, before.executions, from, to);
      dated' := dated;
    }
  }

  lemma BooksWritten(disk: map<string, Version>, timers: ByFile, loaded: map<string, Version>, h: History, name: string,
                     v: Version)
    ensures BooksOf(disk[name := v], timers, loaded, h)
         == BooksOf(disk, timers, loaded, h).(disk := BooksOf(disk, timers, loaded, h).disk[name := v])
    ensures BooksOf(disk, timers, loaded, h).executions == h.executions
  {
  }

  lemma NextUndated(versions: set<Version>, dated: map<nat, int>, next: nat)
    requires AllDated(versions, dated, next)
    ensures next !in dated
  {
  }

  lemma OnTimeLater(b: Books, dated: map<nat, int>, before: multiset<nat>, from: int, to: int)
    requires OnTime(b, dated, before, from) && from <= to
    ensures OnTime(b, dated, before, to)
  {
  }

  /** The clock does not go back during the run. */
  ghost predicate Forward(actions: seq<Action>, clock: nat -> int) {
    forall k | 0 <= k < |actions| :: clock(k) <= clock(k + 1) && During(actions[k], clock(k), clock(k + 1))
  }

  /** If the clock does not go back and no timer fires early, a one-shot event whose date can be read runs
      at most once, however many deletions the world refuses: `dated` has all of them. */
  method RunOnTime(machine: Machine, startTime: int, actions: seq<Action>, ghost clock: nat -> int)
    returns (w: EventsWatcher, ghost dated: map<nat, int>)
    requires machine.Valid() && machine.live == map[] && Forward(actions, clock)
    modifies machine
    ensures fresh(w) && w.machine == machine && w.Valid()
    ensures machine.nextVersion == old(machine.nextVersion) + Writes(actions, |actions|)
    ensures AllDated(old(machine.disk).Values + Written(actions, |actions|, old(machine.nextVersion)), dated,
                     machine.nextVersion)
    ensures forall v <- dated :: machine.history.executions[v] <= old(machine.history.executions[v]) + 1
    ensures forall v <- dated :: old(machine.nextVersion) <= v ==> machine.history.executions[v] <= 1
  {
    hide OnTime, AllDated, During, Ledger, Versions, RecordedIn, ScheduledIn, BooksOf;
    ghost var disk, next, before := machine.disk, machine.nextVersion, machine.history;
    dated := DatesOnDisk(machine.disk, machine.live, next);
    LedgerAhead(machine.disk, machine.live, next, before);
    w := new EventsWatcher(machine, startTime);
    NoTimersYet(disk, w.timers, w.loaded, before, dated, clock(0));
    assert disk.Values + Written(actions, 0, next) == disk.Values;
    for k := 0 to |actions|
      invariant w.Valid() && w.machine == machine && fresh(w)
      invariant machine.nextVersion == next + Writes(actions, k)
      invariant AllDated(disk.Values + Written(actions, k, next), dated, machine.nextVersion)
      invariant OnTime(w.Snapshot(), dated, before.executions, clock(k))
    {
      ghost var versions := disk.Values + Written(actions, k, next);
      ghost var v;
      v, dated := PerformOnTime(w, actions[k], versions, dated, before, clock(k), clock(k + 1));
      assert disk.Values + Written(actions, k + 1, next) == if actions[k].Write? then versions + {v} else versions;
    }
    AtMostOnce(machine.disk, w.timers, w.loaded, machine.history, dated, before, clock(|actions|));
  }

  lemma NoTimersYet(disk: map<string, Version>, timers: ByFile, loaded: map<string, Version>, h: History,
                    dated: map<nat, int>,
                    now: int)
    requires timers == map[] && forall n <- disk :: DatedIn(disk[n], dated)
    ensures OnTime(BooksOf(disk, timers, loaded, h), dated, h.executions, now)
  {
  }

  lemma AtMostOnce(disk: map<string, Version>, timers: ByFile, loaded: map<string, Version>, h: History,
                   dated: map<nat, int>,
                   before: History, now: int)
    requires OnTime(BooksOf(disk, timers, loaded, h), dated, before.executions, now)
    ensures forall v <- dated :: h.executions[v] <= before.executions[v] + 1
  {
  }

  /** The bound is reached: an immediate event whose deletion is refused n times runs n + 1 times, its
      file being reported again after each refusal. */
  method RunsAgain(n: nat) returns (w: EventsWatcher)
    ensures fresh(w) && w.Valid() && w.machine.history.failures[0] == n
    ensures w.machine.history.executions[0] == w.machine.history.enqueued[0] == n + 1
  {
    hide Ledger, Versions, RecordedIn, ScheduledIn, RanOnce;
    var machine := new Machine();
    w := new EventsWatcher(machine, 0);
    w.Start(false, _ => Oracle(0, true, true, true));
    machine.Write("a.json", Immediate, 1);
    for k := 0 to n
      invariant fresh(w) && fresh(w.machine) && w.machine == machine && w.startTime == 0 && w.Valid() && w.watching
      invariant machine.disk == map["a.json" := Version(0, Immediate, 1)]
      invariant machine.history.executions[0] == machine.history.enqueued[0] == machine.history.failures[0] == k
    {
      NotifyAndFire(w, "a.json", Oracle(0, true, true, false));
    }
    NotifyAndFire(w, "a.json", Oracle(0, true, true, true));
  }

  /** One change of an immediate event's file, reported and handled. */
  method NotifyAndFire(w: EventsWatcher, name: string, o: Oracle)
    requires w.Valid() && w.watching && EndsWithJson(name) && name in w.machine.disk
    requires w.RunsNow(w.machine.disk[name], o)
    modifies w, w.machine
    ensures w.Valid() && w.watching
    ensures w.machine.disk == if o.unlinks then old(w.machine.disk) - {name} else old(w.machine.disk)
    ensures var v, h, g := old(w.machine.disk[name].id), old(w.machine.history), w.machine.history;
            && g.executions[v] == h.executions[v] + 1
            && g.enqueued[v] == h.enqueued[v] + (if o.accepts then 1 else 0)
            && g.failures[v] == h.failures[v] + (if o.unlinks then 0 else 1)
  {
    hide Ledger, Versions, RecordedIn, ScheduledIn, RanOnce;
    FailuresAfter(w.machine.history, w.machine.disk[name].id, o.accepts, !o.unlinks);
    assert !Stays(w.machine.disk[name], o);
    w.OnChange(name);
    w.FireDebounce(w.debounceTimers[name], o);
  }

  /** A readable date is needed for that: without one the event runs again after each refusal. */
  method UndatedRunsAgain(n: nat) returns (w: EventsWatcher)
    ensures fresh(w) && w.Valid() && w.machine.history.failures[0] == n
    ensures w.machine.history.executions[0] == w.machine.history.enqueued[0] == n + 1
  {
    hide Ledger, Versions, RecordedIn, ScheduledIn, RanOnce;
    var machine := new Machine();
    w := new EventsWatcher(machine, 0);
    w.Start(false, _ => Oracle(0, true, true, true));
    machine.Write("a.json", OneShot(None), 1);
    for k := 0 to n
      invariant fresh(w) && fresh(w.machine) && w.machine == machine && w.Valid() && w.watching
      invariant machine.disk == map["a.json" := Version(0, OneShot(None), 1)]
      invariant machine.history.executions[0] == machine.history.enqueued[0] == machine.history.failures[0] == k
    {
      NotifyAndTime(w, "a.json", Oracle(0, true, true, true), Oracle(0, true, true, false));
    }
    NotifyAndTime(w, "a.json", Oracle(0, true, true, true), Oracle(0, true, true, true));
  }

  /** A change of a one-shot event's file, reported and handled before the event's date, if it has one, and
      then its timer: the version runs once more, and its file is deleted unless the world refuses. */
  method NotifyAndTime(w: EventsWatcher, name: string, seen: Oracle, o: Oracle)
    requires w.Valid() && w.watching && EndsWithJson(name) && name in w.machine.disk
    requires var c := w.machine.disk[name].content; c.OneShot? && (c.at == None || seen.now < c.at.value)
    modifies w, w.machine
    ensures w.Valid() && w.watching
    ensures w.machine.disk == if o.unlinks then old(w.machine.disk) - {name} else old(w.machine.disk)
    ensures var v, h, g := old(w.machine.disk[name].id), old(w.machine.history), w.machine.history;
            && g.executions[v] == h.executions[v] + 1
            && g.enqueued[v] == h.enqueued[v] + (if o.accepts then 1 else 0)
            && g.failures[v] == h.failures[v] + (if o.unlinks then 0 else 1)
  {
    hide Ledger, Versions, RecordedIn, ScheduledIn, RanOnce, Counted, RunsMatch;
    FailuresAfter(w.machine.history, w.machine.disk[name].id, o.accepts, !o.unlinks);
    NotifyAndSchedule(w, name, seen);
    w.FireTimer(w.timers[name], o);
  }

  method NotifyAndSchedule(w: EventsWatcher, name: string, o: Oracle)
    requires w.Valid() && w.watching && EndsWithJson(name) && name in w.machine.disk
    requires var c := w.machine.disk[name].content; c.OneShot? && (c.at == None || o.now < c.at.value)
    modifies w, w.machine
    ensures w.Valid() && w.watching
    ensures w.machine.disk == old(w.machine.disk) && w.machine.history == old(w.machine.history)
    ensures name in w.timers && w.timers[name] in w.machine.live
    ensures w.machine.live[w.timers[name]] == OneShotTask(name, w.machine.disk[name])
  {
    hide Ledger, Versions, RecordedIn, ScheduledIn, RanOnce;
    w.OnChange(name);
    w.FireDebounce(w.debounceTimers[name], o);
    w.TimerOf(name);
  }
}
