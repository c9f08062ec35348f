// The extension-side adapter around the store: restore, adoption, forced and coalesced writes.
module BackgroundStoreAdapter {
  import opened BackgroundRecords
  import opened JsMap
  import Results = BackgroundResults
  import opened BackgroundStore

  datatype Block = Foreign | CorruptStore

  /**
   * The adapter's own variables, then the world it acts on: the session that owns the store (none
   * without an active context), the extension's live view, the transcripts that hold an adoption
   * marker, the pending host timers, and the store file. `commits` lists the revisions committed to
   * this file, and `published` counts the calls of `commitResults`. `ready` says that the session
   * was restored by this process.
   */
  datatype Adapter = Adapter(
    state: Option<StoreState>, blocked: Option<Block>, blockedSession: Option<string>, markerAppended: bool,
    timer: Option<nat>,
    ready: bool, session: Option<string>, view: View, markers: set<string>, nextTimer: nat, pendingTimers: set<nat>,
    disk: Disk, commits: seq<nat>, published: nat)

  /** A process start: nothing in memory. The disk and the transcripts remain. */
  function Restarted(a: Adapter): Adapter
  {
    Adapter(None, None, None, false, None, false, None, View([], [], 0), a.markers, a.nextTimer, {},
            a.disk, a.commits, 0)
  }

  /**
   * What befalls one write: the clock, a failing read of the prior revision, the commit, a delivery
   * callback that throws while the results are committed, and the marker.
   */
  datatype Write = Write(now: int, readFails: bool, plan: Plan, callbackThrows: bool, markerFails: bool)

  /** An interrupted write has committed everything, but it is reported as failed. */
  datatype WriteEnd = Wrote | Interrupted | Failed | Died

  function ReadStore(a: Adapter, fails: bool): ReadResult
  {
    if fails then Corrupt else Read(a.disk)
  }

  function PriorState(a: Adapter, readFails: bool): Option<StoreState>
  {
    if a.state.Some? then a.state
    else
      match ReadStore(a, readFails)
      case Present(state) => Some(state)
      case _ => None
  }

  function EnsureMarker(a: Adapter, fails: bool): Adapter
    requires a.session.Some?
  {
    if a.markerAppended then a
    else if a.session.value in a.markers then a.(markerAppended := true)
    else if fails then a
    else a.(markers := a.markers + {a.session.value}, markerAppended := true)
  }

  function NextRevision(a: Adapter, w: Write, adoptedAt: Option<int>): StoreState
    requires a.session.Some?
  {
    Build(PriorState(a, w.readFails), a.session.value, w.now, a.view, adoptedAt)
  }

  /** Build the next revision, commit it, and only then publish it and see to the marker. */
  function WriteNow(a: Adapter, w: Write, adoptedAt: Option<int>): (Adapter, WriteEnd)
    requires a.session.Some?
  {
    var next := NextRevision(a, w, adoptedAt);
    var b := a.(disk := CommitDisk(a.disk, next, w.plan));
    match CommitEnds(next, w.plan)
    case Returned =>
      var c := b.(state := Some(next), commits := b.commits + [next.revision], published := b.published + 1);
      if w.callbackThrows then (c, Interrupted) else (EnsureMarker(c, w.markerFails), Wrote)
    case Threw => (b, WriteEnd.Failed)
    case Crashed => (Restarted(b), Died)
  }

  function KeyOwnTasks(tasks: seq<Task>, session: string): seq<(string, Task)>
  {
    if tasks == [] then []
    else
      (if tasks[0].sessionId.Some? && tasks[0].sessionId.value != "" && tasks[0].sessionId.value != session then []
       else [(tasks[0].id, tasks[0])])
      + KeyOwnTasks(tasks[1..], session)
  }

  /**
   * Apply a restored revision to the extension's view; tasks of other sessions are left out, and so is
   * a result's work with an unsafe revision.
   */
  function ApplyRevision(view: View, state: StoreState, session: string): View
  {
    View(Values(PutAll(KeyTasks(view.tasks), KeyOwnTasks(state.tasks, session))),
         Values(PutAll(KeyResults(view.results), Results.CleanedAll(KeyResults(state.results)))),
         Max(view.nextTaskId, Max(state.nextTaskId, HighestTaskNumber(state.tasks))))
  }

  /** `restoreFromStore`; it runs first whenever the session changes. */
  function Restore(a: Adapter, readFails: bool, markerFails: bool): (Adapter, bool)
  {
    var b := (if a.blockedSession != a.session
              then a.(blockedSession := a.session, blocked := None, state := None, markerAppended := false)
              else a).(ready := true);
    if b.session.None? then (b, false)
    else
      match ReadStore(b, readFails)
      case Present(state) =>
        if state.sessionId != b.session.value then (b.(blocked := Some(Foreign)), true)
        else
          var c := b.(state := Some(state), blocked := None,
                      view := ApplyRevision(b.view, state, b.session.value),
                      markerAppended := b.session.value in b.markers);
          (EnsureMarker(c, markerFails), true)
      case Corrupt => (b.(blocked := Some(CorruptStore)), true)
      case Missing =>
        if b.session.value in b.markers then (b.(state := None, markerAppended := true), true) else (b, false)
  }

  function Adopt(a: Adapter, w: Write): Adapter
  {
    if a.blocked.Some? || a.session.None? then a else WriteNow(a, w, Some(w.now)).0
  }

  function CancelScheduled(a: Adapter): Adapter
  {
    if a.timer.None? then a
    else a.(pendingTimers := a.pendingTimers - {a.timer.value}, timer := None)
  }

  function Schedule(a: Adapter): Adapter
  {
    if a.timer.Some? then a
    else a.(timer := Some(a.nextTimer), pendingTimers := a.pendingTimers + {a.nextTimer}, nextTimer := a.nextTimer + 1)
  }

  datatype Persisted = Appended | Coalesced | NoActiveContext | Error

  function Persist(a: Adapter, progress: bool, w: Write): (Adapter, Persisted)
  {
    if a.blocked.Some? then (a, Error)
    else if a.session.None? then (a, NoActiveContext)
    else if progress then (Schedule(a), Coalesced)
    else
      var r := WriteNow(CancelScheduled(a), w, None);
      (r.0, if r.1 == Wrote then Appended else Error)
  }

  function Flush(a: Adapter, w: Write): Adapter
  {
    var b := CancelScheduled(a);
    if b.blocked.Some? || b.session.None? then b else WriteNow(b, w, None).0
  }

  /** The host delivers a timer that is still pending. Without an active session the write throws. */
  function Fire(a: Adapter, handle: nat, w: Write): Adapter
  {
    if handle !in a.pendingTimers then a
    else
      var b := a.(pendingTimers := a.pendingTimers - {handle}, timer := None);
      if b.blocked.Some? || b.session.None? then b else WriteNow(b, w, None).0
  }

  // ---------- Runs ----------

  datatype Event =
    | EOpen(session: Option<string>, disk: Disk, readFails: bool, markerFails: bool)
    | ERestore(readFails: bool, markerFails: bool)
    | EAdopt(w: Write)
    | EView(view: View)
    | EPersist(progress: bool, w: Write)
    | EFlush(w: Write)
    | EFire(handle: nat, w: Write)

  /**
   * One event. Opening switches to a session and its store file and restores from it; until then
   * nothing else is called. The file of a newly opened session may hold anything.
   */
  function Step(a: Adapter, e: Event): Adapter
  {
    if e.EOpen? then
      var commits := if e.disk == a.disk then a.commits else [];
      Restore(a.(session := e.session, disk := e.disk, commits := commits), e.readFails, e.markerFails).0
    else if !a.ready then a
    else
      match e
      case ERestore(readFails, markerFails) => Restore(a, readFails, markerFails).0
      case EAdopt(w) => Adopt(a, w)
      case EView(view) => a.(view := view)
      case EPersist(progress, w) => Persist(a, progress, w).0
      case EFlush(w) => Flush(a, w)
      case EFire(handle, w) => Fire(a, handle, w)
  }

  function Run(a: Adapter, events: seq<Event>): Adapter
    decreases |events|
  {
    if events == [] then a else Run(Step(a, events[0]), events[1..])
  }

  lemma RunHead(a: Adapter, events: seq<Event>)
    requires events != []
    ensures Run(a, events) == Run(Step(a, events[0]), events[1..])
  {
  }

  lemma RunNothing(a: Adapter)
    ensures Run(a, []) == a
  {
  }

  const FRESH := Adapter(None, None, None, false, None, false, None, View([], [], 0), {}, 0, {},
                         Disk(None, None, None), [], 0)

  // ---------- What every run keeps ----------

  predicate Increasing(revisions: seq<nat>)
  {
    forall i, j :: 0 <= i < j < |revisions| ==> revisions[i] < revisions[j]
  }

  function Last(revisions: seq<nat>): nat
  {
    if revisions == [] then 0 else revisions[|revisions| - 1]
  }

  /** The store file holds at least the revision committed last. */
  predicate HoldsLast(a: Adapter)
  {
    a.commits != [] ==> Read(a.disk).Present? && Last(a.commits) <= Read(a.disk).state.revision
  }

  predicate Writable(a: Adapter)
  {
    a.ready && a.blocked.None? && a.session.Some?
  }

  /** While writing is allowed, the next revision is built on one no older than the last commit. */
  predicate BuildsOnLast(a: Adapter)
  {
    Writable(a) && a.commits != [] ==> a.state.Some? && Last(a.commits) <= a.state.value.revision
  }

  predicate OneTimer(a: Adapter)
  {
    a.pendingTimers == (if a.timer.Some? then {a.timer.value} else {})
  }

  predicate Kept(a: Adapter)
  {
    Increasing(a.commits) && HoldsLast(a) && BuildsOnLast(a) && OneTimer(a)
  }

  /** What one write does, by how it ends. */
  lemma WriteEffect(a: Adapter, w: Write, adoptedAt: Option<int>)
    requires a.session.Some?
    ensures var next, b := NextRevision(a, w, adoptedAt), WriteNow(a, w, adoptedAt);
      && (Read(b.0.disk) == Read(a.disk) || Read(b.0.disk) == Present(next))
      && (b.1.Wrote? || b.1.Interrupted? ==>
            && Read(b.0.disk) == Present(next) && b.0.state == Some(next)
            && b.0.commits == a.commits + [next.revision] && b.0.published == a.published + 1)
      && (b.1 == Interrupted <==> CommitEnds(next, w.plan) == Returned && w.callbackThrows)
      && (b.1 == WriteEnd.Failed ==> b.0.state == a.state && b.0.commits == a.commits && b.0.published == a.published)
      && (b.1 == Died ==> !b.0.ready && b.0.commits == a.commits && b.0.pendingTimers == {} && b.0.timer.None?)
      && (b.1 != Died ==>
            && b.0.view == a.view && b.0.session == a.session && b.0.ready == a.ready && b.0.blocked == a.blocked
            && b.0.timer == a.timer && b.0.pendingTimers == a.pendingTimers)
      && (forall m :: m in b.0.markers && m !in a.markers ==> b.1 == Wrote && m == next.sessionId)
  {
    hide Valid, DedupeTasks, DedupeResults;
  }

  lemma WriteKeeps(a: Adapter, w: Write, adoptedAt: Option<int>)
    requires Kept(a) && Writable(a)
    ensures Kept(WriteNow(a, w, adoptedAt).0)
  {
    WriteEffect(a, w, adoptedAt);
    var next := NextRevision(a, w, adoptedAt);
    assert a.commits != [] ==> Last(a.commits) < next.revision;
    hide WriteNow, NextRevision, Read;
  }

  lemma RestoreKeeps(a: Adapter, readFails: bool, markerFails: bool)
    requires Increasing(a.commits) && HoldsLast(a) && OneTimer(a)
    ensures Kept(Restore(a, readFails, markerFails).0)
  {
    hide ApplyRevision, Increasing;
  }

  lemma StepKeeps(a: Adapter, e: Event)
    requires Kept(a)
    ensures Kept(Step(a, e))
  {
    hide Restore, WriteNow, Increasing;
    if e.EOpen? {
      var commits := if e.disk == a.disk then a.commits else [];
      assert Increasing([]) by { NothingIncreases(); }
      RestoreKeeps(a.(session := e.session, disk := e.disk, commits := commits), e.readFails, e.markerFails);
    } else if a.ready {
      match e
      case ERestore(readFails, markerFails) => RestoreKeeps(a, readFails, markerFails);
      case EAdopt(w) =>
        if Writable(a) {
          WriteKeeps(a, w, Some(w.now));
        }
      case EView(view) =>
      case EPersist(progress, w) =>
        var b := CancelScheduled(a);
        if Writable(a) && !progress {
          WriteKeeps(b, w, None);
        }
      case EFlush(w) =>
        var b := CancelScheduled(a);
        if Writable(a) {
          WriteKeeps(b, w, None);
        }
      case EFire(handle, w) =>
        if handle in a.pendingTimers {
          var b := a.(pendingTimers := a.pendingTimers - {handle}, timer := None);
          if Writable(a) {
            WriteKeeps(b, w, None);
          }
        }
    }
  }

  lemma NothingIncreases()
    ensures Increasing([])
  {
  }

  lemma {:induction false} RunKeeps(a: Adapter, events: seq<Event>)
    requires Kept(a)
    ensures Kept(Run(a, events))
    decreases |events|
  {
    hide Step, Kept;
    if events != [] {
      StepKeeps(a, events[0]);
      RunKeeps(Step(a, events[0]), events[1..]);
    }
  }

  /**
   * Over every run the revisions committed to one store file strictly increase, the file holds at
   * least the last of them, and at most one timer is pending.
   */
  lemma {:induction false} RevisionsIncrease(events: seq<Event>)
    ensures var a := Run(FRESH, events); Increasing(a.commits) && HoldsLast(a) && |a.pendingTimers| <= 1
  {
    hide Run;
    assert Kept(FRESH);
    RunKeeps(FRESH, events);
  }

  /** No event of the run opens a session or restores it again. */
  predicate NeverRestores(events: seq<Event>)
  {
    forall i :: 0 <= i < |events| ==> !events[i].EOpen? && !events[i].ERestore?
  }

  /** A store found corrupt or foreign is never written until a later restore finds it sound. */
  lemma {:induction false} BlockedWritesNothing(a: Adapter, events: seq<Event>)
    requires a.ready && a.blocked.Some? && NeverRestores(events)
    ensures var b := Run(a, events);
      b.disk == a.disk && b.blocked == a.blocked && b.commits == a.commits && b.markers == a.markers
    decreases |events|
  {
    hide WriteNow, Restore;
    if events != [] {
      BlockedWritesNothing(Step(a, events[0]), events[1..]);
    }
  }

  /**
   * After a restore the adapter is blocked exactly when the file cannot be read as a valid store, when
   * it belongs to another session, or when it is missing now and a restore of the same session before
   * found it in one of these states.
   */
  lemma RestoreBlocks(a: Adapter, readFails: bool, markerFails: bool)
    requires a.session.Some?
    ensures var b := Restore(a, readFails, markerFails).0;
      b.blocked.Some? <==>
        match ReadStore(a, readFails)
        case Corrupt => true
        case Present(state) => state.sessionId != a.session.value
        case Missing => a.blockedSession == a.session && a.blocked.Some?
  {
    hide ApplyRevision;
  }

  lemma RestoreMarkers(a: Adapter, readFails: bool, markerFails: bool)
    ensures var b := Restore(a, readFails, markerFails).0;
      && b.disk == a.disk
      && forall m :: m in b.markers && m !in a.markers ==> Read(b.disk).Present? && Read(b.disk).state.sessionId == m
  {
    hide ApplyRevision;
  }

  /** An adoption marker is appended only while a valid store of that session is on disk. */
  lemma MarkerNeedsStore(a: Adapter, e: Event, m: string)
    requires m in Step(a, e).markers && m !in a.markers
    ensures Read(Step(a, e).disk).Present? && Read(Step(a, e).disk).state.sessionId == m
  {
    hide Restore, WriteNow;
    if e.EOpen? {
      var commits := if e.disk == a.disk then a.commits else [];
      RestoreMarkers(a.(session := e.session, disk := e.disk, commits := commits), e.readFails, e.markerFails);
    } else if e.ERestore? {
      RestoreMarkers(a, e.readFails, e.markerFails);
    } else if a.session.Some? {
      if e.EAdopt? {
        WriteEffect(a, e.w, Some(e.w.now));
      } else if e.EFire? {
        WriteEffect(a.(pendingTimers := a.pendingTimers - {e.handle}, timer := None), e.w, None);
      } else if e.EPersist? || e.EFlush? {
        WriteEffect(CancelScheduled(a), e.w, None);
      }
    }
  }

  /** Outside a restore, memory advances and results are published only with the new revision on disk. */
  lemma PublishedIsStored(a: Adapter, e: Event)
    requires !e.EOpen? && !e.ERestore? && Step(a, e).ready
    requires Step(a, e).published != a.published || Step(a, e).state != a.state
    ensures var b := Step(a, e);
      b.state.Some? && Read(b.disk) == Present(b.state.value) && b.commits == a.commits + [b.state.value.revision]
  {
    hide WriteNow, NextRevision, Read, Restore;
    StepWrites(a, e);
    if Step(a, e).state != a.state || Step(a, e).published != a.published {
      WriteEffect(Before(a, e), e.w, if e.EAdopt? then Some(e.w.now) else None);
    }
  }

  /** The adapter as it starts the write of an event. */
  function Before(a: Adapter, e: Event): Adapter
  {
    if e.EPersist? || e.EFlush? then CancelScheduled(a)
    else if e.EFire? then a.(pendingTimers := a.pendingTimers - {e.handle}, timer := None)
    else a
  }

  /** Outside a restore, an event writes once, or changes neither the memory of the store nor the file. */
  lemma StepWrites(a: Adapter, e: Event)
    requires !e.EOpen? && !e.ERestore?
    ensures var b := Step(a, e);
      || (b.state == a.state && b.published == a.published && b.disk == a.disk && b.commits == a.commits)
      || (!e.EView? && a.session.Some?
          && b == WriteNow(Before(a, e), e.w, if e.EAdopt? then Some(e.w.now) else None).0)
    ensures var before := Before(a, e);
      && before.state == a.state && before.published == a.published && before.commits == a.commits
      && before.session == a.session
  {
    hide WriteNow;
  }

  // ---------- Flushing ----------

  /** The part of a stored revision that callers put there. */
  predicate Stores(read: ReadResult, session: string, view: View)
  {
    && read.Present? && read.state.sessionId == session
    && read.state.tasks == DedupeTasks(view.tasks) && read.state.results == DedupeResults(view.results)
    && read.state.nextTaskId == Max(view.nextTaskId, HighestTaskNumber(view.tasks))
  }

  /** The flush of `a` with `w` commits. */
  predicate FlushCommits(a: Adapter, w: Write)
  {
    Writable(a) && CommitEnds(NextRevision(CancelScheduled(a), w, None), w.plan) == Returned
  }

  lemma FlushStoresView(a: Adapter, w: Write)
    requires FlushCommits(a, w)
    ensures Stores(Read(Flush(a, w).disk), a.session.value, a.view)
  {
    hide Valid, DedupeTasks, DedupeResults, HighestTaskNumber, Read, ReadFile;
    WriteEffect(CancelScheduled(a), w, None);
  }

  // ---------- Restarting ----------

  lemma {:induction false} KeyTasksOfValues(m: seq<(string, Task)>)
    requires forall i :: 0 <= i < |m| ==> m[i].0 == m[i].1.id
    ensures KeyTasks(Values(m)) == m
  {
    if m != [] {
      KeyTasksOfValues(m[1..]);
      assert Values(m)[1..] == Values(m[1..]);
    }
  }

  lemma {:induction false} PutKeepsTaskKeys(m: seq<(string, Task)>, t: Task)
    requires forall i :: 0 <= i < |m| ==> m[i].0 == m[i].1.id
    ensures forall i :: 0 <= i < |Put(m, t.id, t)| ==> Put(m, t.id, t)[i].0 == Put(m, t.id, t)[i].1.id
  {
    if m != [] && m[0].0 != t.id {
      PutKeepsTaskKeys(m[1..], t);
      var after := Put(m, t.id, t);
      assert forall i :: 1 <= i < |after| ==> after[i] == Put(m[1..], t.id, t)[i - 1];
    }
  }

  lemma {:induction false} PutAllKeepsTaskKeys(m: seq<(string, Task)>, tasks: seq<Task>)
    requires forall i :: 0 <= i < |m| ==> m[i].0 == m[i].1.id
    ensures forall i :: 0 <= i < |PutAll(m, KeyTasks(tasks))| ==>
      PutAll(m, KeyTasks(tasks))[i].0 == PutAll(m, KeyTasks(tasks))[i].1.id
    decreases |tasks|
  {
    if tasks != [] {
      PutKeepsTaskKeys(m, tasks[0]);
      assert KeyTasks(tasks)[1..] == KeyTasks(tasks[1..]);
      PutAllKeepsTaskKeys(Put(m, tasks[0].id, tasks[0]), tasks[1..]);
    }
  }

  /** Deduplicating keeps one task per id, the last one given. */
  lemma DedupeKeepsLast(tasks: seq<Task>, id: string)
    ensures Unique(KeyTasks(DedupeTasks(tasks)))
    ensures Lookup(KeyTasks(DedupeTasks(tasks)), id) == LastValue(KeyTasks(tasks), id)
  {
    PutAllKeepsTaskKeys([], tasks);
    KeyTasksOfValues(PutAll([], KeyTasks(tasks)));
    PutAllLookup([], KeyTasks(tasks), id);
  }

  lemma {:induction false} ValuesOfKeyTasks(tasks: seq<Task>)
    ensures Values(KeyTasks(tasks)) == tasks
  {
    if tasks != [] {
      ValuesOfKeyTasks(tasks[1..]);
      assert KeyTasks(tasks)[1..] == KeyTasks(tasks[1..]);
    }
  }

  lemma DedupeOfUnique(tasks: seq<Task>)
    requires Unique(KeyTasks(tasks))
    ensures DedupeTasks(tasks) == tasks
  {
    PutAllCopies(KeyTasks(tasks));
    ValuesOfKeyTasks(tasks);
  }

  lemma DedupeOfUniqueResults(results: seq<Saved>)
    requires Unique(KeyResults(results))
    ensures DedupeResults(results) == results
  {
    PutAllCopies(KeyResults(results));
    ValuesOfKeyResults(results);
  }

  predicate OwnTask(t: Task, session: string)
  {
    t.sessionId.Some? && t.sessionId.value != "" ==> t.sessionId.value == session
  }

  lemma {:induction false} KeyOwnTasksAll(tasks: seq<Task>, session: string)
    requires forall i :: 0 <= i < |tasks| ==> OwnTask(tasks[i], session)
    ensures KeyOwnTasks(tasks, session) == KeyTasks(tasks)
  {
    if tasks != [] {
      assert OwnTask(tasks[0], session);
      assert forall i :: 0 <= i < |tasks[1..]| ==> tasks[1..][i] == tasks[i + 1];
      KeyOwnTasksAll(tasks[1..], session);
    }
  }

  /** A process that has just opened `session` on the store file `disk`, with nothing in its view. */
  function Opened(session: string, disk: Disk, markers: set<string>): Adapter
  {
    Step(FRESH.(markers := markers), EOpen(Some(session), disk, false, false))
  }

  lemma {:induction false} CleanedKeyed(results: seq<Saved>)
    ensures Keyed(Results.CleanedAll(KeyResults(results)))
  {
    if results != [] {
      CleanedKeyed(results[1..]);
      var cleaned := Results.CleanedAll(KeyResults(results));
      assert KeyResults(results)[1..] == KeyResults(results[1..]);
      assert forall i :: 1 <= i < |cleaned| ==> cleaned[i] == Results.CleanedAll(KeyResults(results[1..]))[i - 1];
    }
  }

  /** What a restore makes of stored results, and what the next revision stores of them. */
  lemma RestoredResults(results: seq<Saved>)
    requires Unique(KeyResults(results))
    ensures var restored := Values(PutAll([], Results.CleanedAll(KeyResults(results))));
      DedupeResults(restored) == restored && (restored == results <==> Results.SafeWorks(KeyResults(results)))
  {
    var cleaned := Results.CleanedAll(KeyResults(results));
    Results.CleanedUnique(KeyResults(results));
    PutAllCopies(cleaned);
    CleanedKeyed(results);
    KeyResultsOfValues(cleaned);
    DedupeOfUniqueResults(Values(cleaned));
    Results.CleanedIsSame(KeyResults(results));
    ValuesOfKeyResults(results);
  }

  /**
   * Restoring a stored revision in a new process and flushing it again stores the same tasks, and the
   * allocation counter does not rewind; it stores the same results exactly when no work among them has
   * an unsafe revision.
   */
  lemma RestartKeepsStore(session: string, disk: Disk, markers: set<string>, w: Write)
    requires Read(disk).Present? && Read(disk).state.sessionId == session
    requires Unique(KeyTasks(Read(disk).state.tasks)) && Unique(KeyResults(Read(disk).state.results))
    requires forall i :: 0 <= i < |Read(disk).state.tasks| ==> OwnTask(Read(disk).state.tasks[i], session)
    requires FlushCommits(Opened(session, disk, markers), w)
    ensures var stored, again := Read(disk).state, Read(Flush(Opened(session, disk, markers), w).disk);
      && again.Present? && again.state.sessionId == session
      && again.state.tasks == stored.tasks && again.state.nextTaskId >= stored.nextTaskId
      && (again.state.results == stored.results <==> Results.SafeWorks(KeyResults(stored.results)))
  {
    hide DedupeTasks, DedupeResults, HighestTaskNumber, ReadFile, Flush, FlushCommits, Results.CleanedAll,
         Results.SafeWorks;
    var stored := Read(disk).state;
    var a := Opened(session, disk, markers);
    KeyOwnTasksAll(stored.tasks, session);
    PutAllCopies(KeyTasks(stored.tasks));
    ValuesOfKeyTasks(stored.tasks);
    assert KeyTasks([]) == [] && KeyResults([]) == [];
    assert a.view.tasks == stored.tasks;
    assert a.view.results == Values(PutAll([], Results.CleanedAll(KeyResults(stored.results))));
    RestoredResults(stored.results);
    FlushStoresView(a, w);
    DedupeOfUnique(stored.tasks);
  }
}
