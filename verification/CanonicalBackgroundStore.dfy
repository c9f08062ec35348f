// The adapter as the source has it: closure variables that every operation updates in place. The
// `host` is the world the closure acts on.
module CanonicalBackgroundStoreHost {
  import opened BackgroundRecords
  import opened JsMap
  import Results = BackgroundResults
  import opened BackgroundStore
  import opened BackgroundStoreAdapter

  datatype Host = Host(
    ready: bool, session: Option<string>, view: View, markers: set<string>, nextTimer: nat, pendingTimers: set<nat>,
    disk: Disk, commits: seq<nat>, published: nat)

  class CanonicalBackgroundStore {
    var state: Option<StoreState>
    var blocked: Option<Block>
    var blockedSession: Option<string>
    var markerAppended: bool
    var timer: Option<nat>
    var host: Host

    function Now(): Adapter
      reads this
    {
      Adapter(state, blocked, blockedSession, markerAppended, timer, host.ready, host.session, host.view, host.markers,
              host.nextTimer, host.pendingTimers, host.disk, host.commits, host.published)
    }

    constructor ()
      ensures Now() == FRESH
    {
      state, blocked, blockedSession, markerAppended, timer := None, None, None, false, None;
      host := Host(false, None, View([], [], 0), {}, 0, {}, Disk(None, None, None), [], 0);
    }

    /** The process ends: everything in memory is gone. */
    method Die()
      modifies this
      ensures Now() == Restarted(old(Now()))
    {
      state, blocked, blockedSession, markerAppended, timer := None, None, None, false, None;
      host := host.(ready := false, session := None, view := View([], [], 0), pendingTimers := {}, published := 0);
    }

    method EnsureAdoptionMarker(fails: bool)
      requires host.session.Some?
      modifies this
      ensures Now() == EnsureMarker(old(Now()), fails)
    {
      if markerAppended {
        return;
      }
      if host.session.value !in host.markers {
        if fails {
          return;
        }
        host := host.(markers := host.markers + {host.session.value});
      }
      markerAppended := true;
    }

    method BuildState(w: Write, adoptedAt: Option<int>) returns (next: StoreState)
      requires host.session.Some?
      ensures next == NextRevision(Now(), w, adoptedAt)
    {
      var prior := state;
      if prior.None? {
        var read := if w.readFails then Corrupt else Read(host.disk);
        if read.Present? {
          prior := Some(read.state);
        }
      }
      var highest := ComputeHighestTaskNumber(host.view.tasks);
      var tasks := ComputeDedupeTasks(host.view.tasks);
      var results := ComputeDedupeResults(host.view.results);
      var generation := if prior.Some? then prior.value.generation else 0;
      var revision := if prior.Some? then prior.value.revision else 0;
      var adopted := if adoptedAt.Some? then adoptedAt else if prior.Some? then prior.value.adoptedAt else None;
      next := StoreState(host.session.value, generation + 1, revision + 1, w.now,
                         Max(host.view.nextTaskId, highest), adopted, tasks, results);
    }

    /** The file holds `next`: record that in memory, publish the results and see to the marker. */
    method Publish(next: StoreState, w: Write) returns (end: WriteEnd)
      requires host.session.Some?
      modifies this
      ensures var c := old(Now()).(state := Some(next), commits := old(host).commits + [next.revision],
                                   published := old(host).published + 1);
        (Now(), end) == if w.callbackThrows then (c, Interrupted) else (EnsureMarker(c, w.markerFails), Wrote)
    {
      hide EnsureMarker;
      ghost var b := Now();
      state := Some(next);
      host := host.(commits := host.commits + [next.revision]);
      host := host.(published := host.published + 1);
      assert Now() == b.(state := Some(next), commits := b.commits + [next.revision], published := b.published + 1);
      if w.callbackThrows {
        return Interrupted;
      }
      EnsureAdoptionMarker(w.markerFails);
      end := Wrote;
    }

    method WriteRevision(w: Write, adoptedAt: Option<int>) returns (end: WriteEnd)
      requires host.session.Some?
      modifies this
      ensures (Now(), end) == WriteNow(old(Now()), w, adoptedAt)
    {
      hide EnsureMarker, NextRevision, CommitEnds, Replaces, DirectorySynced;
      ghost var a := Now();
      var next := BuildState(w, adoptedAt);
      var after, outcome := CommitCanonicalStore(host.disk, next, w.plan);
      assert after.(temporary := None) == CommitDisk(host.disk, next, w.plan);
      hide CommitDisk;
      host := host.(disk := after.(temporary := None));
      ghost var b := Now();
      assert b == a.(disk := CommitDisk(a.disk, next, w.plan));
      if outcome == Crashed {
        Die();
        return Died;
      }
      if outcome == Threw {
        return WriteEnd.Failed;
      }
      end := Publish(next, w);
    }

    method CancelScheduledWrite()
      modifies this
      ensures Now() == CancelScheduled(old(Now()))
    {
      if timer.None? {
        return;
      }
      host := host.(pendingTimers := host.pendingTimers - {timer.value});
      timer := None;
    }

    method ScheduleWrite()
      modifies this
      ensures Now() == Schedule(old(Now()))
    {
      if timer.Some? {
        return;
      }
      timer := Some(host.nextTimer);
      host := host.(pendingTimers := host.pendingTimers + {host.nextTimer});
      host := host.(nextTimer := host.nextTimer + 1);
    }

    /** Apply the tasks of a restored revision that belong to this session, one by one. */
    method ApplyTasks(tasks: seq<Task>)
      requires host.session.Some?
      modifies `host
      ensures host == old(host).(view := old(host).view.(tasks :=
        Values(PutAll(KeyTasks(old(host).view.tasks), KeyOwnTasks(tasks, old(host).session.value)))))
    {
      var byId := KeyTasks(host.view.tasks);
      var i := 0;
      ghost var goal := PutAll(byId, KeyOwnTasks(tasks, host.session.value));
      while i < |tasks|
        invariant 0 <= i <= |tasks|
        invariant PutAll(byId, KeyOwnTasks(tasks[i..], host.session.value)) == goal
        invariant host == old(host)
      {
        var task := tasks[i];
        var own := KeyOwnTasks(tasks[i..], host.session.value);
        assert tasks[i..][1..] == tasks[i + 1..];
        i := i + 1;
        if task.sessionId.Some? && task.sessionId.value != "" && task.sessionId.value != host.session.value {
          assert own == KeyOwnTasks(tasks[i..], host.session.value);
          continue;
        }
        assert own[1..] == KeyOwnTasks(tasks[i..], host.session.value);
        byId := Put(byId, task.id, task);
      }
      host := host.(view := host.view.(tasks := Values(byId)));
    }

    /** A different session owns the store now: forget what was known about the previous one. */
    method NoticeSession()
      modifies this
      ensures Now() == (if old(blockedSession) != old(host).session
                        then old(Now()).(blockedSession := old(host).session, blocked := None, state := None,
                                         markerAppended := false)
                        else old(Now())).(ready := true)
    {
      if blockedSession != host.session {
        blockedSession, blocked, state, markerAppended := host.session, None, None, false;
      }
      host := host.(ready := true);
    }

    method TakeOver(stored: StoreState)
      requires host.session.Some?
      modifies this
      ensures Now() == old(Now()).(state := Some(stored), blocked := None,
                                   view := ApplyRevision(old(host).view, stored, old(host).session.value),
                                   markerAppended := old(host).session.value in old(host).markers)
    {
      hide HighestTaskNumber;
      state := Some(stored);
      blocked := None;
      ApplyTasks(stored.tasks);
      var highest := ComputeHighestTaskNumber(stored.tasks);
      host := host.(view := host.view.(nextTaskId := Max(host.view.nextTaskId, Max(stored.nextTaskId, highest))));
      var results := Values(PutAll(KeyResults(host.view.results), Results.CleanedAll(KeyResults(stored.results))));
      host := host.(view := host.view.(results := results));
      assert host.view == ApplyRevision(old(host).view, stored, host.session.value);
      markerAppended := host.session.value in host.markers;
    }

    method RestoreFromStore(readFails: bool, markerFails: bool) returns (authoritative: bool)
      modifies this
      ensures (Now(), authoritative) == Restore(old(Now()), readFails, markerFails)
    {
      hide ApplyRevision, ReadFile, EnsureMarker;
      NoticeSession();
      ghost var b := Now();
      if host.session.None? {
        return false;
      }
      var read := if readFails then Corrupt else Read(host.disk);
      assert read == ReadStore(b, readFails);
      hide ReadStore, Read;
      if read.Present? {
        if read.state.sessionId != host.session.value {
          blocked := Some(Foreign);
          return true;
        }
        TakeOver(read.state);
        EnsureAdoptionMarker(markerFails);
        return true;
      }
      if read.Corrupt? {
        blocked := Some(CorruptStore);
        return true;
      }
      if host.session.value in host.markers {
        state, markerAppended := None, true;
        return true;
      }
      authoritative := false;
    }

    method AdoptLegacyState(w: Write)
      modifies this
      ensures Now() == Adopt(old(Now()), w)
    {
      if blocked.Some? || host.session.None? {
        return;
      }
      var end := WriteRevision(w, Some(w.now));
    }

    method PersistState(progress: bool, w: Write) returns (result: Persisted)
      modifies this
      ensures (Now(), result) == Persist(old(Now()), progress, w)
    {
      hide WriteNow;
      if blocked.Some? {
        return Error;
      }
      if host.session.None? {
        return NoActiveContext;
      }
      if progress {
        ScheduleWrite();
        return Coalesced;
      }
      CancelScheduledWrite();
      var end := WriteRevision(w, None);
      result := if end == Wrote then Appended else Error;
    }

    method FlushState(w: Write)
      modifies this
      ensures Now() == Flush(old(Now()), w)
    {
      hide WriteNow;
      CancelScheduledWrite();
      if blocked.Some? || host.session.None? {
        return;
      }
      var end := WriteRevision(w, None);
    }

    method TimerFires(handle: nat, w: Write)
      modifies this
      ensures Now() == Fire(old(Now()), handle, w)
    {
      hide WriteNow;
      if handle !in host.pendingTimers {
        return;
      }
      host := host.(pendingTimers := host.pendingTimers - {handle});
      timer := None;
      if blocked.Some? || host.session.None? {
        return;
      }
      var end := WriteRevision(w, None);
    }

    /** The host switches to a session and its store file. */
    method OpenSession(session: Option<string>, disk: Disk, readFails: bool, markerFails: bool)
      modifies this
      ensures Now() == Step(old(Now()), EOpen(session, disk, readFails, markerFails))
    {
      hide Restore;
      host := host.(commits := if disk == host.disk then host.commits else []);
      host := host.(session := session, disk := disk);
      var authoritative := RestoreFromStore(readFails, markerFails);
    }

    /** One call of the host; before a session is opened there is nothing to call. */
    method Take(e: Event)
      modifies this
      ensures Now() == Step(old(Now()), e)
      ensures old(Kept(Now())) ==> Kept(Now())
    {
      hide Kept, Restore, Adopt, Persist, Flush, Fire;
      ghost var a := Now();
      match e {
        case EOpen(session, disk, readFails, markerFails) => OpenSession(session, disk, readFails, markerFails);
        case ERestore(readFails, markerFails) =>
          if host.ready {
            var authoritative := RestoreFromStore(readFails, markerFails);
          }
        case EAdopt(w) =>
          if host.ready {
            AdoptLegacyState(w);
          }
        case EView(view) =>
          if host.ready {
            host := host.(view := view);
          }
        case EPersist(progress, w) =>
          if host.ready {
            var result := PersistState(progress, w);
          }
        case EFlush(w) =>
          if host.ready {
            FlushState(w);
          }
        case EFire(handle, w) =>
          if host.ready {
            TimerFires(handle, w);
          }
      }
      if Kept(a) {
        StepKeeps(a, e);
      }
    }

    /**
     * Any calls, in any order, on a new adapter, with a fault or a crash at any I/O call: the committed
     * revisions strictly increase, the file holds at least the last of them, and at most one timer is
     * pending.
     */
    method Serve(events: seq<Event>)
      requires Now() == FRESH
      modifies this
      ensures Now() == Run(FRESH, events)
      ensures Increasing(host.commits) && HoldsLast(Now()) && |host.pendingTimers| <= 1
    {
      hide Kept, Step, Run;
      RevisionsIncrease(events);
      var i := 0;
      assert Run(Now(), events[0..]) == Run(FRESH, events) by { assert events[0..] == events; }
      while i < |events|
        invariant 0 <= i <= |events|
        invariant Run(Now(), events[i..]) == Run(FRESH, events)
      {
        RunHead(Now(), events[i..]);
        assert events[i..][1..] == events[i + 1..];
        Take(events[i]);
        i := i + 1;
      }
      assert events[i..] == [];
      RunNothing(Now());
    }
  }
}
