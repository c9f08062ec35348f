// The store adapter wired to the background source, as scripts/background-flow-transform.mjs wires
// them: the adapter writes what the source holds, and its committed writes commit the source's results.
module BackgroundExtension {
  import opened BackgroundRecords
  import opened JsMap
  import opened BackgroundResults
  import opened BackgroundStore
  import Store = BackgroundStoreAdapter
  import Source = BackgroundProducer
  import SourceLaws = BackgroundProducerLaws
  import Coalescing = BackgroundCoalescing

  datatype Extension = Extension(adapter: Store.Adapter, source: Source.Producer)

  /**
   * `Local` starts, ends or clears a task or activates a delivery. The others reach the store: a
   * progress update, a forced one, a flush, the coalescing timer, an acknowledgement, and the end of
   * the process, after which the next one may fail to read the file.
   */
  datatype Event =
    | Local(e: Source.Event)
    | Progress
    | Force(w: Store.Write)
    | FlushNow(w: Store.Write)
    | Timer(handle: nat, w: Store.Write)
    | Acknowledge(id: string, revision: string, receipt: Receipt, w: Store.Write)
    | Restart(readFails: bool)

  /** The adapter with what it would read of the source now. */
  function At(a: Store.Adapter, s: Source.Producer): Store.Adapter
  {
    a.(view := View(s.tasks, Snapshot(s.results, s.tasks), a.view.nextTaskId))
  }

  /** How the write of the source ends. */
  function Outcome(a: Store.Adapter, s: Source.Producer, w: Store.Write): Source.Write
  {
    if !Store.Writable(a) then Source.Refused
    else
      var next := Store.NextRevision(At(a, s), w, None);
      match CommitEnds(next, w.plan)
      case Returned => if w.callbackThrows then Source.Interrupted else Source.Wrote
      case Threw => Source.Threw(Replaces(next, w.plan))
      case Crashed => Source.Died(Replaces(next, w.plan))
  }

  /** Starting and ending tasks, clearing them and activating deliveries; tasks belong to the session. */
  predicate IsLocal(x: Extension, e: Source.Event)
  {
    || (e.EStart? && x.adapter.session.Some? && Store.OwnTask(e.task, x.adapter.session.value))
    || e.EEnd? || e.EDeliver? || e.EClear?
  }

  /** The source as an acknowledgement writes it, with the receipt recorded. */
  function Receipted(s: Source.Producer, id: string, revision: string, receipt: Receipt): Source.Producer
  {
    if Source.IsNew(s, id, revision, receipt) then Source.Marked(s, id, revision, receipt) else s
  }

  /** What the event is for the source. */
  function SourceEvent(x: Extension, e: Event): Option<Source.Event>
  {
    match e
    case Local(local) => if IsLocal(x, local) then Some(local) else None
    case Progress => if Store.Writable(x.adapter) then Some(Source.EPrepare) else None
    case Force(w) => Some(Source.EPersist(Outcome(x.adapter, Source.Prepared(x.source), w)))
    case FlushNow(w) => Some(Source.EPersist(Outcome(x.adapter, Source.Prepared(x.source), w)))
    case Timer(handle, w) =>
      if handle in x.adapter.pendingTimers then Some(Source.EWrite(Outcome(x.adapter, x.source, w))) else None
    case Acknowledge(id, revision, receipt, w) =>
      var marked := Receipted(x.source, id, revision, receipt);
      Some(Source.EAcknowledge(id, revision, receipt, Outcome(x.adapter, Source.Prepared(marked), w)))
    case Restart(readFails) => Some(Source.ERestart(!readFails))
  }

  /** A process that has ended is followed by one that opens the same session and restores it. */
  function Revived(a: Store.Adapter, session: Option<string>, readFails: bool): Store.Adapter
  {
    if a.ready then a else Store.Restore(a.(session := session), readFails, false).0
  }

  /** Preparing finds no incomplete result. */
  predicate Complete(s: Source.Producer)
  {
    PrepareAll(s.tasks, s.deliveries).1
  }

  /** Prepare the source and persist it at once; an incomplete result throws before anything else. */
  function Forced(x: Extension, s: Source.Producer, w: Store.Write): Store.Adapter
  {
    if Store.Writable(x.adapter) && Complete(s)
    then Revived(Store.Persist(At(x.adapter, Source.Prepared(s)), false, w).0, x.adapter.session, false)
    else x.adapter
  }

  function AdapterAfter(x: Extension, e: Event): Store.Adapter
  {
    match e
    case Local(local) =>
      if local.EStart? then x.adapter.(view := x.adapter.view.(nextTaskId := x.adapter.view.nextTaskId + 1))
      else x.adapter
    case Progress =>
      if Store.Writable(x.adapter) && Complete(x.source) then Store.Schedule(x.adapter) else x.adapter
    case Force(w) => Forced(x, x.source, w)
    case FlushNow(w) =>
      if Store.Writable(x.adapter) && Complete(x.source)
      then Revived(Store.Flush(At(x.adapter, Source.Prepared(x.source)), w), x.adapter.session, false)
      else Store.CancelScheduled(x.adapter)
    case Timer(handle, w) => Revived(Store.Fire(At(x.adapter, x.source), handle, w), x.adapter.session, false)
    case Acknowledge(id, revision, receipt, w) =>
      if Source.IsNew(x.source, id, revision, receipt)
      then Forced(x, Receipted(x.source, id, revision, receipt), w) else x.adapter
    case Restart(readFails) => Revived(Store.Restarted(x.adapter), x.adapter.session, readFails)
  }

  function Step(x: Extension, e: Event): Extension
  {
    var after := match SourceEvent(x, e) case None => x.source case Some(event) => Source.Step(x.source, event);
    Extension(AdapterAfter(x, e), after)
  }

  // ---------- The file holds what the source says is stored ----------

  predicate DistinctIds(tasks: seq<Task>)
  {
    forall i, j :: 0 <= i < j < |tasks| ==> tasks[i].id != tasks[j].id
  }

  predicate AllOwn(tasks: seq<Task>, session: string)
  {
    forall i :: 0 <= i < |tasks| ==> Store.OwnTask(tasks[i], session)
  }

  predicate Tidy(tasks: seq<Task>, session: string)
  {
    DistinctIds(tasks) && AllOwn(tasks, session)
  }

  predicate Holds(read: ReadResult, session: string, stored: Source.Stored)
  {
    match read
    case Missing => stored == Source.Stored([], [])
    case Present(state) => state.sessionId == session && state.tasks == stored.tasks && state.results == stored.records
    case Corrupt => false
  }

  /** The session's file holds the stored tasks and results, each once. */
  predicate Filed(a: Store.Adapter, stored: Source.Stored)
    requires a.session.Some?
  {
    && Tidy(stored.tasks, a.session.value) && Unique(KeyResults(stored.records))
    && Holds(Read(a.disk), a.session.value, stored)
  }

  ghost predicate Linked(x: Extension)
  {
    && x.adapter.ready && x.adapter.session.Some? && (x.adapter.blocked.Some? <==> x.source.blocked)
    && Source.Kept(x.source)
    && Tidy(x.source.tasks, x.adapter.session.value) && Filed(x.adapter, x.source.stored)
  }

  lemma {:induction false} LookupOfIds(tasks: seq<Task>, id: string)
    requires forall i :: 0 <= i < |tasks| ==> tasks[i].id != id
    ensures Lookup(KeyTasks(tasks), id).None?
  {
    if tasks != [] {
      assert KeyTasks(tasks)[1..] == KeyTasks(tasks[1..]);
      LookupOfIds(tasks[1..], id);
    }
  }

  lemma {:induction false} DistinctIsUnique(tasks: seq<Task>)
    requires DistinctIds(tasks)
    ensures Unique(KeyTasks(tasks))
  {
    if tasks != [] {
      assert KeyTasks(tasks)[1..] == KeyTasks(tasks[1..]);
      LookupOfIds(tasks[1..], tasks[0].id);
      DistinctIsUnique(tasks[1..]);
    }
  }

  /** Writing the source stores its tasks and its snapshot as they are. */
  lemma StoredAsTheyAre(a: Store.Adapter, s: Source.Producer, w: Store.Write)
    requires Store.Writable(a) && Source.Consistent(s) && DistinctIds(s.tasks)
    ensures var next := Store.NextRevision(At(a, s), w, None);
      next.sessionId == a.session.value && next.tasks == s.tasks && next.results == Snapshot(s.results, s.tasks)
  {
    hide Source.Consistent, Snapshot, DedupeTasks, DedupeResults, HighestTaskNumber;
    DistinctIsUnique(s.tasks);
    Store.DedupeOfUnique(s.tasks);
    SnapshotIsUnique(s);
    Store.DedupeOfUniqueResults(Snapshot(s.results, s.tasks));
  }

  lemma SnapshotIsUnique(s: Source.Producer)
    requires Source.Consistent(s)
    ensures Unique(KeyResults(Snapshot(s.results, s.tasks)))
  {
    hide Commit;
    Coalescing.SnapshotIsCommit(s);
    Source.CommitKeeps(s);
    Source.SoundIsKeyed(Commit(s.results, s.tasks), s.issued);
    KeyResultsOfValues(Commit(s.results, s.tasks));
  }

  lemma ReadAfter(d: Disk, state: StoreState, plan: Plan)
    ensures Read(CommitDisk(d, state, plan)) == if Replaces(state, plan) then Present(state) else Read(d)
    ensures CommitEnds(state, plan) == Returned ==> Replaces(state, plan)
  {
    hide Valid;
  }

  /** A write of the adapter, and its file and session after it. */
  lemma WriteEnds(a: Store.Adapter, s: Source.Producer, w: Store.Write)
    requires Store.Writable(a)
    ensures var after := Store.WriteNow(At(a, s), w, None).0; var next := Store.NextRevision(At(a, s), w, None);
      && after.disk == CommitDisk(a.disk, next, w.plan)
      && (Outcome(a, s, w).Died? <==> !after.ready)
      && (after.ready ==> Store.Writable(after) && after.session == a.session)
      && (!after.ready ==> after == Store.Restarted(after))
  {
    hide Store.NextRevision, CommitDisk, CommitEnds, Replaces, Snapshot;
  }

  /** The same write of the source, and what is stored after it. */
  lemma WriteStores(a: Store.Adapter, s: Source.Producer, w: Store.Write)
    requires Store.Writable(a)
    ensures var source := Source.WriteNow(s, Outcome(a, s, w)); var next := Store.NextRevision(At(a, s), w, None);
      && source.stored
           == (if Replaces(next, w.plan) then Source.Stored(s.tasks, Snapshot(s.results, s.tasks)) else s.stored)
      && source.tasks == (if Outcome(a, s, w).Died? then source.stored.tasks else s.tasks)
      && (!s.blocked ==> !source.blocked)
      && (Outcome(a, s, w).Wrote? ==> Replaces(next, w.plan))
  {
    hide Store.NextRevision, Snapshot, Commit, Restore, CommitEnds, Replaces;
    ReadAfter(a.disk, Store.NextRevision(At(a, s), w, None), w.plan);
  }

  /** A write of the source, and the file and the session after it. */
  lemma WriteHolds(a: Store.Adapter, s: Source.Producer, w: Store.Write)
    requires Store.Writable(a) && Source.Kept(s) && Tidy(s.tasks, a.session.value) && Filed(a, s.stored)
    ensures var after := Store.WriteNow(At(a, s), w, None).0;
            var source := Source.WriteNow(s, Outcome(a, s, w));
      && Filed(after.(session := a.session), source.stored) && Tidy(source.tasks, a.session.value)
      && (Outcome(a, s, w).Died? <==> !after.ready)
      && (after.ready ==> Store.Writable(after) && after.session == a.session)
      && (!after.ready ==> after == Store.Restarted(after))
      && (Outcome(a, s, w).Wrote? ==> Read(after.disk).Present?)
      && (!s.blocked ==> !source.blocked)
  {
    WriteEnds(a, s, w);
    WriteStores(a, s, w);
    hide Outcome, Source.WriteNow, Source.Kept, Snapshot, Commit, Valid, Store.NextRevision, Store.WriteNow, Tidy,
         Restore, ReadFile, CommitEnds, Replaces, CommitDisk, Read;
    assert Source.Consistent(s) && DistinctIds(s.tasks) by { KeptParts(s, a.session.value); }
    StoredAsTheyAre(a, s, w);
    SnapshotIsUnique(s);
    ReadAfter(a.disk, Store.NextRevision(At(a, s), w, None), w.plan);
  }

  lemma KeptParts(s: Source.Producer, session: string)
    requires Source.Kept(s) && Tidy(s.tasks, session)
    ensures Source.Consistent(s) && DistinctIds(s.tasks)
  {
  }

  // ---------- A new process ----------

  /**
   * What the next process restores from the file is what the model of the source takes for a restart:
   * the stored tasks and the stored results, each under its key. Nothing blocks it.
   */
  lemma RestartRestores(a: Store.Adapter, session: string, stored: Source.Stored)
    requires a == Store.Restarted(a) && Filed(a.(session := Some(session)), stored)
    ensures var b := Revived(a, Some(session), false);
      && Store.Writable(b) && b.session == Some(session) && b.disk == a.disk
      && b.view.tasks == stored.tasks && KeyResults(b.view.results) == Restore([], stored.records)
  {
    hide Tidy, CleanedAll, HighestTaskNumber;
    assert KeyTasks([]) == [] && KeyResults([]) == [];
    if Read(a.disk).Present? {
      var state := Read(a.disk).state;
      assert DistinctIds(state.tasks) && AllOwn(state.tasks, session) by { TidyParts(state.tasks, session); }
      DistinctIsUnique(state.tasks);
      Store.KeyOwnTasksAll(state.tasks, session);
      PutAllCopies(KeyTasks(state.tasks));
      Store.ValuesOfKeyTasks(state.tasks);
      CleanedUnique(KeyResults(state.results));
      PutAllCopies(CleanedAll(KeyResults(state.results)));
      Store.CleanedKeyed(state.results);
      KeyResultsOfValues(CleanedAll(KeyResults(state.results)));
    } else {
      NothingCleaned();
    }
  }

  /** A process that cannot read the file is blocked, and starts with nothing. */
  lemma RestartBlocks(a: Store.Adapter, session: string)
    requires a == Store.Restarted(a)
    ensures var b := Revived(a, Some(session), true);
      && b.ready && b.session == Some(session) && b.blocked.Some? && b.disk == a.disk
      && b.view.tasks == [] && b.view.results == []
  {
  }

  lemma NothingCleaned()
    ensures Restore([], []) == []
  {
  }

  lemma TidyParts(tasks: seq<Task>, session: string)
    requires Tidy(tasks, session)
    ensures DistinctIds(tasks) && AllOwn(tasks, session)
  {
  }

  // ---------- Every event keeps the link ----------

  lemma TidySame(tasks: seq<Task>, after: seq<Task>, session: string)
    requires Tidy(tasks, session) && |after| == |tasks|
    requires forall i :: 0 <= i < |tasks| ==> after[i].id == tasks[i].id && after[i].sessionId == tasks[i].sessionId
    ensures Tidy(after, session)
  {
    forall i | 0 <= i < |after|
      ensures Store.OwnTask(after[i], session)
    {
      assert Store.OwnTask(tasks[i], session);
    }
  }

  lemma PreparedTidy(s: Source.Producer, session: string)
    requires Tidy(s.tasks, session)
    ensures Tidy(Source.Prepared(s).tasks, session)
  {
    hide PrepareAll, Tidy;
    Source.PrepareAdvances(s.tasks, s.deliveries);
    TidySame(s.tasks, PrepareAll(s.tasks, s.deliveries).0, session);
  }

  lemma MirroredTidy(s: Source.Producer, id: string, revision: string, receipt: Receipt, session: string)
    requires Tidy(s.tasks, session)
    ensures Tidy(Source.Mirrored(s.tasks, id, revision, receipt), session)
  {
    hide Tidy;
    TidySame(s.tasks, Source.Mirrored(s.tasks, id, revision, receipt), session);
  }

  /** After a write the next process is at work, or this one still is. */
  lemma RevivedWrites(a: Store.Adapter, s: Source.Producer, w: Store.Write)
    requires !s.blocked && Store.Writable(a) && Source.Kept(s) && Tidy(s.tasks, a.session.value) && Filed(a, s.stored)
    ensures Linked(Extension(Revived(Store.WriteNow(At(a, s), w, None).0, a.session, false),
                             Source.WriteNow(s, Outcome(a, s, w))))
    ensures Revived(Store.WriteNow(At(a, s), w, None).0, a.session, false).session == a.session
    ensures Outcome(a, s, w).Wrote? ==> Read(Revived(Store.WriteNow(At(a, s), w, None).0, a.session, false).disk).Present?
  {
    hide Source.Kept, Store.WriteNow, Store.Restore, Source.WriteNow, Tidy, Holds, Read, ReadFile;
    WriteHolds(a, s, w);
    Source.WriteKeeps(s, Outcome(a, s, w));
    var after := Store.WriteNow(At(a, s), w, None).0;
    var source := Source.WriteNow(s, Outcome(a, s, w));
    if !after.ready {
      RestartRestores(after, a.session.value, source.stored);
    }
  }

  lemma CancelledSame(a: Store.Adapter, s: Source.Producer, w: Store.Write)
    requires Store.Writable(a)
    ensures Store.CancelScheduled(At(a, s)) == At(Store.CancelScheduled(a), s)
    ensures Outcome(Store.CancelScheduled(a), s, w) == Outcome(a, s, w)
    ensures Store.Writable(Store.CancelScheduled(a)) && Store.CancelScheduled(a).session == a.session
    ensures Store.CancelScheduled(a).disk == a.disk
  {
  }

  lemma ForcedLinks(x: Extension, s: Source.Producer, w: Store.Write)
    requires Linked(x) && Source.Kept(s) && s.stored == x.source.stored && s.blocked == x.source.blocked
    requires Tidy(s.tasks, x.adapter.session.value)
    ensures var outcome := Outcome(x.adapter, Source.Prepared(s), w);
      && Linked(Extension(Forced(x, s, w), Source.Persist(s, outcome)))
      && Forced(x, s, w).session == x.adapter.session && (outcome.Refused? <==> x.source.blocked)
      && Source.Reaches(s, outcome) == (Complete(s) && !x.source.blocked)
      && (Complete(s) && outcome.Wrote? ==> Read(Forced(x, s, w).disk).Present?)
  {
    hide Source.Kept, Store.WriteNow, Store.Restore, Source.WriteNow, Tidy, PrepareAll, Holds, Store.NextRevision,
         Read, ReadFile;
    var a, p := x.adapter, Source.Prepared(s);
    Coalescing.PreparedKept(s);
    PreparedTidy(s, a.session.value);
    if Store.Writable(a) {
      CancelledSame(a, p, w);
      if Complete(s) {
        RevivedWrites(Store.CancelScheduled(a), p, w);
      }
    }
  }

  lemma AcknowledgeLinks(x: Extension, e: Event)
    requires Linked(x) && e.Acknowledge? && Source.IsNew(x.source, e.id, e.revision, e.receipt)
    ensures Linked(Step(x, e)) && Step(x, e).adapter.session == x.adapter.session
  {
    hide Source.Kept, Tidy, PrepareAll, Holds, Read, ReadFile, Outcome, Store.Restore, Source.Persist,
         Forced, Source.Undone, SetReceipt, Source.Mirrored;
    var s := x.source;
    var m := Source.Marked(s, e.id, e.revision, e.receipt);
    var outcome := Outcome(x.adapter, Source.Prepared(m), e.w);
    assert Source.Consistent(s) by { KeptParts(s, x.adapter.session.value); }
    Coalescing.MarkedKept(s, e.id, e.revision, e.receipt);
    MirroredTidy(s, e.id, e.revision, e.receipt, x.adapter.session.value);
    ForcedLinks(x, m, e.w);
    Source.MarkedReaches(s, e.id, e.revision, e.receipt, outcome);
    if !(Source.Reaches(s, outcome) && (outcome.Wrote? || outcome.Died?)) {
      Source.FailedAcknowledgeUndone(s, e.id, e.revision, e.receipt, outcome);
      StaysOpen(s, outcome);
      StaysOpen(m, outcome);
      PreparedTidy(s, x.adapter.session.value);
      Source.AcknowledgeKeeps(s, e.id, e.revision, e.receipt, outcome);
    }
  }

  lemma StaysOpen(s: Source.Producer, w: Source.Write)
    requires Source.Reaches(s, w) ==> !w.Died?
    ensures Source.Persist(s, w).blocked == s.blocked
    ensures Source.Persist(s, w).tasks == if w.Refused? then s.tasks else Source.Prepared(s).tasks
  {
    hide Snapshot, Commit, PrepareAll;
  }

  lemma LocalLinks(x: Extension, e: Event)
    requires Linked(x) && e.Local?
    ensures Linked(Step(x, e)) && Step(x, e).adapter.session == x.adapter.session
  {
    hide Source.Kept, PrepareAll, Holds, Read, ReadFile, Store.OwnTask;
    Source.StepTurns(x.source, e.e);
    var s, after := x.source, Step(x, e).source;
    if IsLocal(x, e.e) {
      match e.e
      case EEnd(i, status, byShutdown) => TidySame(s.tasks, after.tasks, x.adapter.session.value);
      case EClear(i) =>
        assert forall j :: 0 <= j < |after.tasks| && |after.tasks| < |s.tasks| ==>
          after.tasks[j] == s.tasks[if j < i then j else j + 1];
      case _ =>
    }
  }

  lemma StepLinks(x: Extension, e: Event)
    requires Linked(x)
    ensures Linked(Step(x, e)) && Step(x, e).adapter.session == x.adapter.session
  {
    hide Source.Kept, Tidy, PrepareAll, Holds, Read, ReadFile, Store.Restore, Store.WriteNow, Source.WriteNow;
    match e
    case Local(local) => LocalLinks(x, e);
    case Progress => ProgressLinks(x);
    case Force(w) => ForcedLinks(x, x.source, w);
    case FlushNow(w) => FlushLinks(x, w);
    case Timer(handle, w) => TimerLinks(x, handle, w);
    case Acknowledge(id, revision, receipt, w) =>
      if Source.IsNew(x.source, id, revision, receipt) {
        AcknowledgeLinks(x, e);
      }
    case Restart(readFails) => RestartLinks(x, readFails);
  }

  lemma ProgressLinks(x: Extension)
    requires Linked(x)
    ensures Linked(Step(x, Progress)) && Step(x, Progress).adapter.session == x.adapter.session
  {
    hide Source.Kept, Tidy, PrepareAll, Holds, Read, ReadFile;
    Coalescing.PreparedKept(x.source);
    PreparedTidy(x.source, x.adapter.session.value);
  }

  lemma RestartLinks(x: Extension, readFails: bool)
    requires Linked(x)
    ensures Linked(Step(x, Restart(readFails))) && Step(x, Restart(readFails)).adapter.session == x.adapter.session
  {
    hide Source.Kept, Tidy, Holds, Read, ReadFile, Store.Restore;
    Source.StepTurns(x.source, Source.ERestart(!readFails));
    if readFails {
      RestartBlocks(Store.Restarted(x.adapter), x.adapter.session.value);
      NothingIsTidy(x.adapter.session.value);
    } else {
      RestartRestores(Store.Restarted(x.adapter), x.adapter.session.value, x.source.stored);
    }
  }

  lemma NothingIsTidy(session: string)
    ensures Tidy([], session)
  {
  }

  lemma FlushLinks(x: Extension, w: Store.Write)
    requires Linked(x)
    ensures Linked(Step(x, FlushNow(w))) && Step(x, FlushNow(w)).adapter.session == x.adapter.session
    ensures Complete(x.source) && Outcome(x.adapter, Source.Prepared(x.source), w).Wrote? ==>
      Read(Step(x, FlushNow(w)).adapter.disk).Present?
  {
    hide Source.Kept, Tidy, PrepareAll, Holds, Read, ReadFile, Store.Restore, Store.WriteNow, Source.WriteNow,
         Store.NextRevision;
    ForcedLinks(x, x.source, w);
    if Store.Writable(x.adapter) && Complete(x.source) {
      CancelledSame(x.adapter, Source.Prepared(x.source), w);
      FlushIsForced(At(x.adapter, Source.Prepared(x.source)), w);
    }
  }

  /** A flush of a writable adapter writes as a forced update does. */
  lemma FlushIsForced(a: Store.Adapter, w: Store.Write)
    requires Store.Writable(a)
    ensures Store.Flush(a, w) == Store.Persist(a, false, w).0
  {
    hide Store.WriteNow;
  }

  lemma TimerLinks(x: Extension, handle: nat, w: Store.Write)
    requires Linked(x)
    ensures Linked(Step(x, Timer(handle, w))) && Step(x, Timer(handle, w)).adapter.session == x.adapter.session
  {
    hide Source.Kept, Tidy, Holds, Read, ReadFile, Store.Restore, Store.WriteNow, Source.WriteNow, Outcome, Snapshot;
    var a := x.adapter;
    if handle in a.pendingTimers {
      var b := a.(pendingTimers := a.pendingTimers - {handle}, timer := None);
      if Store.Writable(a) {
        FiredSame(a, x.source, handle, w);
        RevivedWrites(b, x.source, w);
      }
    }
  }

  lemma FiredSame(a: Store.Adapter, s: Source.Producer, handle: nat, w: Store.Write)
    requires Store.Writable(a) && handle in a.pendingTimers
    ensures var b := a.(pendingTimers := a.pendingTimers - {handle}, timer := None);
      && Outcome(b, s, w) == Outcome(a, s, w) && !Outcome(a, s, w).Refused?
      && Store.Fire(At(a, s), handle, w) == Store.WriteNow(At(b, s), w, None).0
  {
    hide Store.WriteNow, Snapshot;
  }

  // ---------- Whole runs ----------

  function Run(x: Extension, events: seq<Event>): Extension
  {
    if events == [] then x else Step(Run(x, events[..|events| - 1]), events[|events| - 1])
  }

  /** The events of the source in a run of the extension. */
  function SourceEvents(x: Extension, events: seq<Event>): seq<Source.Event>
  {
    if events == [] then []
    else
      var front := events[..|events| - 1];
      SourceEvents(x, front)
      + match SourceEvent(Run(x, front), events[|events| - 1]) case None => [] case Some(event) => [event]
  }

  lemma {:induction false} SourceRuns(x: Extension, events: seq<Event>)
    requires x.source == Source.EMPTY
    ensures Run(x, events).source == Source.Run(Source.EMPTY, SourceEvents(x, events))
  {
    hide Source.Step, SourceEvent, AdapterAfter;
    if events != [] {
      var front := events[..|events| - 1];
      SourceRuns(x, front);
      match SourceEvent(Run(x, front), events[|events| - 1])
      case None => assert SourceEvents(x, front) + [] == SourceEvents(x, front);
      case Some(event) => SourceLaws.RunNext(SourceEvents(x, front), event);
    }
  }

  lemma {:induction false} RunLinks(x: Extension, events: seq<Event>)
    requires Linked(x)
    ensures Linked(Run(x, events)) && Run(x, events).adapter.session == x.adapter.session
  {
    hide Step, Linked;
    if events != [] {
      RunLinks(x, events[..|events| - 1]);
      StepLinks(Run(x, events[..|events| - 1]), events[|events| - 1]);
    }
  }

  /** A process that opens a session whose store file does not exist yet. */
  function Opened(session: string, disk: Disk, markers: set<string>): Extension
  {
    Extension(Store.Opened(session, disk, markers), Source.EMPTY)
  }

  lemma OpenedLinks(session: string, disk: Disk, markers: set<string>)
    requires Read(disk).Missing?
    ensures Linked(Opened(session, disk, markers))
    ensures Opened(session, disk, markers).adapter.session == Some(session)
  {
    hide Read, ReadFile;
    SourceLaws.NothingIsKept();
  }

  /**
   * Over every run of the extension, with every failure of its writes and every end of the process,
   * the source goes through a run of its own model, and the store file holds exactly what that model
   * says is stored.
   */
  lemma FileIsStored(session: string, disk: Disk, markers: set<string>, events: seq<Event>)
    requires Read(disk).Missing?
    ensures var start := Opened(session, disk, markers); var x := Run(start, events);
      && x.source == Source.Run(Source.EMPTY, SourceEvents(start, events))
      && Holds(Read(x.adapter.disk), session, x.source.stored)
  {
    hide Run, SourceEvents, Opened, Source.Run, Holds, Read;
    var start := Opened(session, disk, markers);
    OpenedLinks(session, disk, markers);
    RunLinks(start, events);
    assert start.source == Source.EMPTY by { OpensEmpty(session, disk, markers); }
    SourceRuns(start, events);
  }

  lemma OpensEmpty(session: string, disk: Disk, markers: set<string>)
    ensures Opened(session, disk, markers).source == Source.EMPTY
  {
  }

  /**
   * Whatever mix of progress updates, forced updates, timers, acknowledgements and I/O faults came
   * before, a flush that commits leaves in the store file the tasks of the producer that committed
   * every update at once, and the same results exactly when no task was cleared whose result was due
   * but not committed.
   */
  lemma CoalescedStore(session: string, disk: Disk, markers: set<string>, events: seq<Event>, w: Store.Write)
    requires Read(disk).Missing?
    requires var sourced := SourceEvents(Opened(session, disk, markers), events);
      forall i :: 0 <= i < |sourced| ==> Coalescing.Survives(sourced[i])
    requires var x := Run(Opened(session, disk, markers), events);
      Complete(x.source) && Outcome(x.adapter, Source.Prepared(x.source), w).Wrote?
    ensures var start := Opened(session, disk, markers);
            var sourced := SourceEvents(start, events);
            var read := Read(Step(Run(start, events), FlushNow(w)).adapter.disk);
            var eager := Coalescing.RunEager(sourced + [Source.EPersist(Source.Wrote)]).stored;
      && read.Present? && read.state.sessionId == session && read.state.tasks == eager.tasks
      && (Coalescing.SameResults(KeyResults(read.state.results), KeyResults(eager.records)) <==>
            forall k :: !Coalescing.Discards(sourced, k))
  {
    hide Run, SourceEvents, Opened, Source.Run, Read, Source.Step, AdapterAfter, Coalescing.RunEager, KeyResults,
         Coalescing.SameResults, Coalescing.Discards, PrepareAll, Outcome;
    var start := Opened(session, disk, markers);
    var x := Run(start, events);
    var sourced := SourceEvents(start, events);
    OpenedLinks(session, disk, markers);
    RunLinks(start, events);
    OpensEmpty(session, disk, markers);
    SourceRuns(start, events);
    FlushLinks(x, w);
    SourceLaws.RunNext(sourced, Source.EPersist(Source.Wrote));
    Coalescing.CoalescingLosesNothing(sourced);
  }
}
