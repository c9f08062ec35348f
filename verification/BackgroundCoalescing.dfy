// Coalesced and failing writes against the producer that commits every update at once: what the two
// store after a write that returns, and exactly when they differ.
module BackgroundCoalescing {
  import opened BackgroundRecords
  import opened JsMap
  import opened BackgroundResults
  import opened BackgroundProducer
  import opened BackgroundProducerLaws

  /** The process lives through the event. */
  predicate Survives(e: Event)
  {
    !e.ERestart? && (e.EWrite? || e.EPersist? || e.EAcknowledge? ==> !e.w.Died?)
  }

  /**
   * What the event is for a producer that commits every update at once, with writes that never fail.
   * Of the acknowledgements it makes those that were reported as made; one that failed leaves the
   * update that its write would have been.
   */
  function Eager(s: Producer, e: Event): Option<Event>
  {
    match e
    case EPrepare => Some(EPersist(Wrote))
    case EPersist(w) => if w.Refused? then None else Some(EPersist(Wrote))
    case EWrite(w) => if w.Refused? then None else Some(EWrite(Wrote))
    case EAcknowledge(id, revision, receipt, w) =>
      if !IsNew(s, id, revision, receipt) || w.Refused? then None
      else if Reaches(s, w) && w.Wrote? then Some(e)
      else Some(EPersist(Wrote))
    case _ => Some(e)
  }

  function StepEager(b: Producer, e: Option<Event>): Producer
  {
    match e case None => b case Some(event) => Step(b, event)
  }

  function RunEager(events: seq<Event>): Producer
  {
    if events == [] then EMPTY
    else
      var front := events[..|events| - 1];
      StepEager(RunEager(front), Eager(Run(EMPTY, front), events[|events| - 1]))
  }

  /** The event asks for the results to be written: at once, delayed, or by a timer. */
  predicate IsDue(s: Producer, e: Event)
  {
    match e
    case EPrepare => Reaches(s, Wrote)
    case EPersist(w) => Reaches(s, w)
    case EWrite(w) => !w.Refused?
    case EAcknowledge(id, revision, receipt, w) => IsNew(s, id, revision, receipt) && Reaches(s, w)
    case _ => false
  }

  /** A live task carries the result of `k`. */
  predicate Carried(tasks: seq<Task>, k: Key)
  {
    exists i :: 0 <= i < |tasks| && HasResult(tasks[i]) && LiveAt(tasks[i], k)
  }

  predicate DueAt(events: seq<Event>, j: nat, k: Key)
    requires j < |events|
  {
    IsDue(Run(EMPTY, events[..j]), events[j]) && Carried(Run(EMPTY, events[..j + 1]).tasks, k)
  }

  /** A write of the result of `k` was asked for. */
  predicate WasDue(events: seq<Event>, k: Key)
  {
    exists j :: 0 <= j < |events| && DueAt(events, j, k)
  }

  lemma WasDueSnoc(events: seq<Event>, k: Key)
    requires events != []
    ensures WasDue(events, k) <==> WasDue(events[..|events| - 1], k) || DueAt(events, |events| - 1, k)
  {
    hide Run, Carried, IsDue;
    var n := |events| - 1;
    var front := events[..n];
    assert forall j :: 0 <= j <= n ==> front[..j] == events[..j];
    assert forall j :: 0 <= j < n ==> front[j] == events[j];
    if WasDue(front, k) {
      var j :| 0 <= j < n && DueAt(front, j, k);
      assert DueAt(events, j, k);
    }
    if WasDue(events, k) {
      var j :| 0 <= j < |events| && DueAt(events, j, k);
      assert j < n ==> DueAt(front, j, k);
    }
  }

  // ---------- The two producers side by side ----------

  /** Same tasks; and the eager one knows every result of the other, with the same receipts. */
  ghost predicate Ahead(s: Producer, b: Producer)
  {
    && b.tasks == s.tasks && b.deliveries == s.deliveries && b.issued == s.issued && !s.blocked && !b.blocked
    && forall k :: Lookup(s.results, k).Some? ==> Lookup(b.results, k) == Lookup(s.results, k)
  }

  /** What a commit adds to the map: the results that live tasks carry. */
  lemma CommitAdds(s: Producer, k: Key)
    requires Consistent(s)
    ensures Lookup(Commit(s.results, s.tasks), k).Some? <==> Lookup(s.results, k).Some? || Carried(s.tasks, k)
  {
    hide Commit, Consistent;
    CommitLookup(s, k);
  }

  lemma CommitAhead(s: Producer, b: Producer)
    requires Consistent(s) && Consistent(b) && Ahead(s, b)
    ensures Ahead(s, b.(results := Commit(b.results, b.tasks)))
    ensures Ahead(s.(results := Commit(s.results, s.tasks)), b.(results := Commit(b.results, b.tasks)))
  {
    hide Commit, Consistent;
    forall k
      ensures Lookup(s.results, k).Some? ==> Lookup(Commit(b.results, b.tasks), k) == Lookup(s.results, k)
      ensures Lookup(Commit(s.results, s.tasks), k).Some? ==>
        Lookup(Commit(b.results, b.tasks), k) == Lookup(Commit(s.results, s.tasks), k)
    {
      CommitLookup(s, k);
      CommitLookup(b, k);
    }
  }

  /** Writing: the eager producer commits whenever a write is due, the other one when its write returns. */
  lemma WriteAhead(s: Producer, b: Producer, w: Write)
    requires Kept(s) && Kept(b) && Ahead(s, b) && !w.Refused? && !w.Died?
    ensures Ahead(WriteNow(s, w), WriteNow(b, Wrote))
    ensures WriteNow(s, w).tasks == s.tasks
    ensures forall k :: Lookup(WriteNow(b, Wrote).results, k).Some? <==> Lookup(b.results, k).Some? || Carried(s.tasks, k)
  {
    hide Commit, Snapshot, Consistent, Carried;
    CommitAhead(s, b);
    forall k {
      CommitAdds(b, k);
    }
  }

  lemma PersistAhead(s: Producer, b: Producer, w: Write)
    requires Kept(s) && Kept(b) && Ahead(s, b) && !w.Refused? && !w.Died?
    ensures Ahead(Persist(s, w), Persist(b, Wrote)) && Ahead(Prepared(s), Persist(b, Wrote))
    ensures Persist(s, w).tasks == Prepared(s).tasks && Reaches(s, w) == Reaches(b, Wrote)
    ensures forall k :: Lookup(Persist(b, Wrote).results, k).Some? <==>
      Lookup(b.results, k).Some? || (Reaches(s, w) && Carried(Prepared(s).tasks, k))
  {
    hide PrepareAll, WriteNow, Consistent, Carried;
    PreparedKept(s);
    PreparedKept(b);
    if Reaches(s, w) {
      WriteAhead(Prepared(s), Prepared(b), w);
      WriteAhead(Prepared(s), Prepared(b), Threw(false));
      ThrewKeeps(Prepared(s));
    }
  }

  lemma ThrewKeeps(s: Producer)
    ensures WriteNow(s, Threw(false)) == s
  {
  }

  lemma PreparedKept(s: Producer)
    requires Kept(s)
    ensures Kept(Prepared(s))
  {
    hide Consistent;
    PreparedKeeps(s);
    SameCopy(Reopened(s), Reopened(Prepared(s)));
  }

  /** A receipt that is new to one is new to the other, and both record it on the same result and task. */
  lemma MarkedAhead(s: Producer, b: Producer, id: string, revision: string, receipt: Receipt)
    requires Consistent(s) && Consistent(b) && Ahead(s, b) && IsNew(s, id, revision, receipt)
    ensures IsNew(b, id, revision, receipt)
    ensures Ahead(Marked(s, id, revision, receipt), Marked(b, id, revision, receipt))
    ensures forall k :: Lookup(Marked(b, id, revision, receipt).results, k).Some? <==> Lookup(b.results, k).Some?
  {
    hide SetReceipt, Mirrored, Consistent;
    assert Unique(s.results) && Unique(b.results) by { BothUnique(s, b); }
    var k := SetReceiptChanges(s.results, id, revision, receipt, true);
    var j := SetReceiptChanges(b.results, id, revision, receipt, true);
    var named := AcknowledgedKey(b, id, revision, receipt);
    assert j == k;
  }

  lemma BothUnique(s: Producer, b: Producer)
    requires Consistent(s) && Consistent(b)
    ensures Unique(s.results) && Unique(b.results)
  {
  }

  lemma AcknowledgeAhead(s: Producer, b: Producer, e: Event)
    requires Kept(s) && Kept(b) && Ahead(s, b) && e.EAcknowledge? && Survives(e)
    ensures Ahead(Step(s, e), StepEager(b, Eager(s, e)))
    ensures forall k :: Lookup(StepEager(b, Eager(s, e)).results, k).Some? <==>
      Lookup(b.results, k).Some? || (IsDue(s, e) && Carried(Step(s, e).tasks, k))
  {
    hide PrepareAll, Consistent, Carried, Persist, SetReceipt, Undone, Mirrored, Reaches;
    var EAcknowledge(id, revision, receipt, w) := e;
    if IsNew(s, id, revision, receipt) && !w.Refused? {
      if Reaches(s, w) && w.Wrote? {
        MarkedKept(s, id, revision, receipt);
        MarkedAhead(s, b, id, revision, receipt);
        var m, c := Marked(s, id, revision, receipt), Marked(b, id, revision, receipt);
        MarkedKept(b, id, revision, receipt);
        MarkedReaches(s, id, revision, receipt, w);
        PersistAhead(m, c, w);
        assert Reaches(b, w) == Reaches(s, w) by { SameReaches(s, b, w); }
        assert StepEager(b, Eager(s, e)) == Persist(c, Wrote);
        assert Step(s, e) == Persist(m, w);
      } else {
        FailedAcknowledgeUndone(s, id, revision, receipt, w);
        PersistAhead(s, b, w);
        assert StepEager(b, Eager(s, e)) == Persist(b, Wrote);
      }
    } else if IsNew(s, id, revision, receipt) {
      assert !Reaches(s, w) by { RefusedNeverReaches(s, w); }
      FailedAcknowledgeUndone(s, id, revision, receipt, w);
      RefusedPersists(s, w);
      RefusedPersists(Marked(s, id, revision, receipt), w);
    }
  }

  lemma SameReaches(s: Producer, b: Producer, w: Write)
    requires Ahead(s, b)
    ensures Reaches(s, w) == Reaches(b, w)
  {
  }

  lemma RefusedNeverReaches(s: Producer, w: Write)
    requires w.Refused?
    ensures !Reaches(s, w)
  {
  }

  lemma MarkedKept(s: Producer, id: string, revision: string, receipt: Receipt)
    requires Kept(s) && IsNew(s, id, revision, receipt)
    ensures Kept(Marked(s, id, revision, receipt))
  {
    hide Consistent, SetReceipt, Mirrored;
    var k := MarkedKeeps(s, id, revision, receipt);
    SameCopy(Reopened(s), Reopened(Marked(s, id, revision, receipt)));
  }

  lemma StepAhead(s: Producer, b: Producer, e: Event)
    requires Kept(s) && Kept(b) && Ahead(s, b) && Survives(e)
    ensures Ahead(Step(s, e), StepEager(b, Eager(s, e)))
    ensures forall k :: Lookup(StepEager(b, Eager(s, e)).results, k).Some? <==>
      Lookup(b.results, k).Some? || (IsDue(s, e) && Carried(Step(s, e).tasks, k))
  {
    hide PrepareAll, Consistent, Carried, WriteNow, Persist, Acknowledge, Reaches;
    match e
    case EStart(t) =>
    case EEnd(i, status, byShutdown) =>
    case EDeliver(deliveries) =>
    case EClear(i) =>
    case EPrepare =>
      PersistAhead(s, b, Wrote);
    case EWrite(w) =>
      if !w.Refused? {
        WriteAhead(s, b, w);
      }
    case EPersist(w) =>
      if !w.Refused? {
        PersistAhead(s, b, w);
      } else {
        RefusedNeverReaches(s, w);
        assert Persist(s, w) == s by { RefusedPersists(s, w); }
      }
    case EAcknowledge(id, revision, receipt, w) => AcknowledgeAhead(s, b, e);
  }

  lemma RefusedPersists(s: Producer, w: Write)
    requires w.Refused?
    ensures Persist(s, w) == s
  {
  }

  lemma {:induction false} RunAhead(events: seq<Event>)
    requires forall i :: 0 <= i < |events| ==> Survives(events[i])
    ensures Kept(RunEager(events)) && Ahead(Run(EMPTY, events), RunEager(events))
    ensures forall k :: Lookup(RunEager(events).results, k).Some? <==> WasDue(events, k)
  {
    hide Step, Kept, Ahead, Eager, Carried, IsDue, WasDue;
    RunTurns(events);
    if events == [] {
      assert Ahead(EMPTY, EMPTY) by { BothEmpty(); }
      assert forall k :: !WasDue([], k) by { NothingDue(); }
    } else {
      var n := |events| - 1;
      var front := events[..n];
      var s, b := Run(EMPTY, front), RunEager(front);
      RunAhead(front);
      RunTurns(front);
      StepAhead(s, b, events[n]);
      if Eager(s, events[n]).Some? {
        StepTurns(b, Eager(s, events[n]).value);
      }
      assert events[..n + 1] == events;
      forall k
        ensures Lookup(RunEager(events).results, k).Some? <==> WasDue(events, k)
      {
        WasDueSnoc(events, k);
      }
    }
  }

  lemma BothEmpty()
    ensures Ahead(EMPTY, EMPTY)
  {
  }

  lemma NothingDue()
    ensures forall k :: !WasDue([], k)
  {
  }

  // ---------- Clears that lose a result ----------

  /** The event clears the task that carries the result of `k`, which was due but is not committed. */
  predicate DiscardsAt(events: seq<Event>, i: nat, k: Key)
    requires i < |events|
  {
    var s, e := Run(EMPTY, events[..i]), events[i];
    && e.EClear? && Clearable(s, e.index) && HasResult(s.tasks[e.index]) && LiveAt(s.tasks[e.index], k)
    && Lookup(s.results, k).None? && WasDue(events[..i], k)
  }

  predicate Discards(events: seq<Event>, k: Key)
  {
    exists i :: 0 <= i < |events| && DiscardsAt(events, i, k)
  }

  lemma DiscardsSnoc(events: seq<Event>, k: Key)
    requires events != []
    ensures Discards(events, k) <==> Discards(events[..|events| - 1], k) || DiscardsAt(events, |events| - 1, k)
  {
    hide Run, WasDue;
    var n := |events| - 1;
    var front := events[..n];
    assert forall i :: 0 <= i < n ==> front[..i] == events[..i] && front[i] == events[i];
    if Discards(front, k) {
      var i :| 0 <= i < n && DiscardsAt(front, i, k);
      assert DiscardsAt(events, i, k);
    }
    if Discards(events, k) {
      var i :| 0 <= i < |events| && DiscardsAt(events, i, k);
      assert i < n ==> DiscardsAt(front, i, k);
    }
  }

  /** The eager producer has a result of which the other one knows nothing any more. */
  ghost predicate IsLost(s: Producer, b: Producer, k: Key)
  {
    Lookup(b.results, k).Some? && EntryOf(s, k) == Unknown
  }

  lemma CarriedIsKnown(s: Producer, k: Key)
    requires Carried(s.tasks, k)
    ensures EntryOf(s, k) != Unknown
  {
  }

  /** A live task whose result is in the map carries it. */
  lemma KnownIsCarried(s: Producer, i: nat, k: Key)
    requires Consistent(s) && i < |s.tasks| && LiveAt(s.tasks[i], k) && Lookup(s.results, k).Some?
    ensures HasResult(s.tasks[i])
  {
    assert SoundTask(s.tasks[i], s.results, s.issued);
  }

  lemma FreshIsNotKept(b: Producer, t: Task, k: Key)
    requires Consistent(b) && Issuable(b.issued, t) && LiveAt(t, k)
    ensures Lookup(b.results, k).None?
  {
    IssuedResults(b, t);
  }

  lemma ClearLoses(s: Producer, b: Producer, i: nat, k: Key)
    requires Consistent(s) && Consistent(b) && Ahead(s, b) && Clearable(s, i)
    ensures IsLost(Step(s, EClear(i)), b, k) <==>
      || IsLost(s, b, k)
      || (HasResult(s.tasks[i]) && LiveAt(s.tasks[i], k) && Lookup(s.results, k).None? && Lookup(b.results, k).Some?)
  {
    hide Consistent, EntryOf, LiveAt;
    ClearKeeps(s, i);
    if LiveAt(s.tasks[i], k) && Lookup(b.results, k).Some? {
      KnownIsCarried(b, i, k);
    }
  }

  lemma StartLosesNothing(s: Producer, b: Producer, t: Task, k: Key)
    requires Consistent(s) && Consistent(b) && Ahead(s, b) && Startable(s, t)
    ensures IsLost(Step(s, EStart(t)), b, k) <==> IsLost(s, b, k)
  {
    hide Consistent, EntryOf, LiveAt;
    StartKeeps(s, t);
    if LiveAt(t, k) {
      FreshIsNotKept(b, t, k);
    }
  }

  /** Only clearing loses a result. */
  lemma StepLoses(s: Producer, b: Producer, e: Event, k: Key)
    requires Kept(s) && Kept(b) && Ahead(s, b) && Survives(e)
    ensures IsLost(Step(s, e), StepEager(b, Eager(s, e)), k) <==>
      || IsLost(s, b, k)
      || (e.EClear? && Clearable(s, e.index) && HasResult(s.tasks[e.index]) && LiveAt(s.tasks[e.index], k)
          && Lookup(s.results, k).None? && Lookup(b.results, k).Some?)
  {
    hide Consistent, EntryOf, Carried, Ahead, IsDue, WriteNow, Persist, Acknowledge, LiveAt, Prepared;
    if e.EClear? {
      if Clearable(s, e.index) {
        ClearLoses(s, b, e.index, k);
      }
    } else if e.EStart? {
      if Startable(s, e.task) {
        StartLosesNothing(s, b, e.task, k);
        assert Startable(b, e.task) by { SameStartable(s, b, e.task); }
      } else {
        assert !Startable(b, e.task) by { SameStartable(s, b, e.task); }
      }
    } else {
      StepTurns(s, e);
      StepAhead(s, b, e);
      MarkIsTimely(s, e, k);
      assert CardOf(Step(s, e), k) == Turn(CardOf(s, k), MarkOf(s, e, k));
      if Carried(Step(s, e).tasks, k) {
        CarriedIsKnown(Step(s, e), k);
      }
    }
  }

  lemma SameStartable(s: Producer, b: Producer, t: Task)
    requires Ahead(s, b)
    ensures Startable(s, t) == Startable(b, t)
  {
  }

  lemma {:induction false} RunLoses(events: seq<Event>, k: Key)
    requires forall i :: 0 <= i < |events| ==> Survives(events[i])
    ensures IsLost(Run(EMPTY, events), RunEager(events), k) <==> Discards(events, k)
  {
    hide Step, Kept, Ahead, Eager, WasDue, Clearable, LiveAt, EntryOf;
    if events != [] {
      var n := |events| - 1;
      var front := events[..n];
      RunLoses(front, k);
      RunAhead(front);
      RunTurns(front);
      StepLoses(Run(EMPTY, front), RunEager(front), events[n], k);
      DiscardsSnoc(events, k);
    }
  }

  /** After a write that returned, the file holds the results that the map then holds. */
  lemma WrittenIsCommitted(s: Producer)
    requires Consistent(s)
    ensures var after := WriteNow(s, Wrote);
      after.stored.tasks == s.tasks && KeyResults(after.stored.records) == after.results
  {
    hide Commit, Snapshot;
    SnapshotIsCommit(s);
    CommitKeeps(s);
    SoundIsKeyed(Commit(s.results, s.tasks), s.issued);
    KeyResultsOfValues(Commit(s.results, s.tasks));
  }

  lemma SnapshotIsCommit(s: Producer)
    requires Consistent(s)
    ensures Snapshot(s.results, s.tasks) == Values(Commit(s.results, s.tasks))
  {
    SoundIsKeyed(s.results, s.issued);
    KeyResultsOfValues(s.results);
    PutAllCopies(s.results);
  }

  /** The same results under the same keys; their order may differ. */
  ghost predicate SameResults(a: seq<(Key, Saved)>, b: seq<(Key, Saved)>)
  {
    forall k :: Lookup(a, k) == Lookup(b, k)
  }

  /**
   * Over every run the process lives through, whatever mix of immediate, delayed and failing writes,
   * acknowledgements and clears: a last write that returns stores the same tasks as the producer that
   * committed every update at once, and the same results exactly when no task was cleared whose result
   * was due but not committed.
   */
  lemma CoalescingLosesNothing(events: seq<Event>)
    requires forall i :: 0 <= i < |events| ==> Survives(events[i])
    requires Reaches(Run(EMPTY, events), Wrote)
    ensures var all := events + [EPersist(Wrote)];
            var stored, eager := Run(EMPTY, all).stored, RunEager(all).stored;
      && stored.tasks == eager.tasks
      && (SameResults(KeyResults(stored.records), KeyResults(eager.records)) <==> forall k :: !Discards(events, k))
  {
    hide Run, RunEager, Discards, KeyResults;
    LastWriteStores(events);
    forall k {
      DiffersAt(events, k);
    }
  }

  lemma LastWriteStores(events: seq<Event>)
    requires forall i :: 0 <= i < |events| ==> Survives(events[i])
    requires Reaches(Run(EMPTY, events), Wrote)
    ensures var all := events + [EPersist(Wrote)];
            var after, ahead := Run(EMPTY, all), RunEager(all);
      && after == WriteNow(Prepared(Run(EMPTY, events)), Wrote) && Kept(Prepared(Run(EMPTY, events)))
      && KeyResults(after.stored.records) == after.results && KeyResults(ahead.stored.records) == ahead.results
      && after.stored.tasks == ahead.stored.tasks
  {
    hide Run, RunEager, WriteNow, Consistent, PrepareAll, KeyResults;
    var s, b := Run(EMPTY, events), RunEager(events);
    RunAhead(events);
    LastWrite(events);
    RunTurns(events);
    PreparedKept(s);
    PreparedKept(b);
    SameReaches(s, b, Wrote);
    WrittenIsCommitted(Prepared(s));
    WrittenIsCommitted(Prepared(b));
  }

  lemma DiffersAt(events: seq<Event>, k: Key)
    requires forall i :: 0 <= i < |events| ==> Survives(events[i])
    requires Reaches(Run(EMPTY, events), Wrote)
    ensures var all := events + [EPersist(Wrote)];
      Lookup(Run(EMPTY, all).results, k) == Lookup(RunEager(all).results, k) <==> !Discards(events, k)
  {
    hide Run, RunEager, Discards, WriteNow, Consistent, EntryOf, Prepared, Lookup;
    var all := events + [EPersist(Wrote)];
    assert all[..|events|] == events;
    LastWriteStores(events);
    RunAhead(all);
    RunTurns(all);
    RunLoses(all, k);
    DiscardsSnoc(all, k);
    LostIsMissing(Prepared(Run(EMPTY, events)), Run(EMPTY, all), RunEager(all), k);
  }

  lemma LastWrite(events: seq<Event>)
    requires !Run(EMPTY, events).blocked && !RunEager(events).blocked
    ensures var all := events + [EPersist(Wrote)];
      && Run(EMPTY, all) == Persist(Run(EMPTY, events), Wrote)
      && RunEager(all) == Persist(RunEager(events), Wrote)
  {
    hide Persist;
    var all := events + [EPersist(Wrote)];
    assert all[..|events|] == events;
    RunNext(events, EPersist(Wrote));
  }

  /** Right after a write that returned, what is missing from the map is not known at all. */
  lemma LostIsMissing(s: Producer, after: Producer, b: Producer, k: Key)
    requires Consistent(s) && Consistent(b) && after == WriteNow(s, Wrote) && Ahead(after, b)
    ensures Lookup(after.results, k) != Lookup(b.results, k) <==> IsLost(after, b, k)
  {
    hide Consistent, Commit, LiveAt, Snapshot;
    CommitAdds(s, k);
    if Lookup(b.results, k).Some? && IsLive(after.tasks, k) {
      var i :| 0 <= i < |after.tasks| && LiveAt(after.tasks[i], k);
      KnownIsCarried(b, i, k);
      assert Carried(s.tasks, k);
    }
  }

  /**
   * A run in which that happens: the job ends, a progress update asks for its result to be written, and
   * it is cleared before the delayed write.
   */
  lemma ClearedBeforeWritten()
    ensures var events :=
              [EDeliver(map["session" := HOME]), EStart(JOB), EEnd(0, Completed, false), EPrepare, EClear(0)];
            var all := events + [EPersist(Wrote)];
            var stored, eager := Run(EMPTY, all).stored, RunEager(all).stored;
      && Discards(events, TaskKey(JOB)) && stored.tasks == eager.tasks
      && !SameResults(KeyResults(stored.records), KeyResults(eager.records))
  {
    var events := [EDeliver(map["session" := HOME]), EStart(JOB), EEnd(0, Completed, false), EPrepare, EClear(0)];
    var s := JobPending();
    assert events[..4] == [EDeliver(map["session" := HOME]), EStart(JOB), EEnd(0, Completed, false), EPrepare];
    assert events[..4] + [events[4]] == events;
    RunNext(events[..4], EClear(0));
    hide Run, RunEager, PrepareAll, WasDue;
    assert s.tasks[..0] + s.tasks[1..] == [];
    assert PrepareAll([], Run(EMPTY, events).deliveries) == ([], true) by { NothingPrepares(s.deliveries); }
    assert DiscardsAt(events, 4, TaskKey(JOB));
    CoalescingLosesNothing(events);
  }

  lemma NothingPrepares(deliveries: map<string, Scope>)
    ensures PrepareAll([], deliveries) == ([], true)
  {
  }

  /** The job with its result prepared and due, but not written. */
  lemma JobPending() returns (s: Producer)
    ensures var events := [EDeliver(map["session" := HOME]), EStart(JOB), EEnd(0, Completed, false), EPrepare];
      s == Run(EMPTY, events) && WasDue(events, TaskKey(JOB))
    ensures s.tasks == [JobPrepared()] && s.results == [] && !s.blocked
  {
    var events := [EDeliver(map["session" := HOME]), EStart(JOB), EEnd(0, Completed, false), EPrepare];
    var ended := JobEnded();
    assert events[..3] == [EDeliver(map["session" := HOME]), EStart(JOB), EEnd(0, Completed, false)];
    assert events[..3] + [EPrepare] == events && events[..4] == events;
    RunNext(events[..3], EPrepare);
    hide Run;
    JobPrepares();
    hide PrepareAll;
    s := Run(EMPTY, events);
    assert HasResult(s.tasks[0]) && LiveAt(s.tasks[0], TaskKey(JOB));
    assert DueAt(events, 3, TaskKey(JOB));
  }
}
