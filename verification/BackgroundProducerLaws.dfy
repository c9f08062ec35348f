// What whole runs of the background producer keep: exactly when an observation is known, when an
// execution is lost, and when a work is released.
module BackgroundProducerLaws {
  import opened BackgroundRecords
  import opened JsMap
  import opened BackgroundResults
  import opened BackgroundProducer

  // ---------- Whole runs ----------

  /** What each event of the run means for `k`. */
  function Marks(events: seq<Event>, k: Key): (marks: seq<Mark>)
    ensures |marks| == |events|
  {
    if events == [] then []
    else
      var front := events[..|events| - 1];
      Marks(front, k) + [MarkOf(Run(EMPTY, front), events[|events| - 1], k)]
  }

  /** The card after the marks, from nothing known. */
  function Play(marks: seq<Mark>): Card
  {
    if marks == [] then Card(Unknown, Unknown) else Turn(Play(marks[..|marks| - 1]), marks[|marks| - 1])
  }

  lemma NothingIsKept()
    ensures Kept(EMPTY) && forall k :: CardOf(EMPTY, k) == Card(Unknown, Unknown)
  {
    assert Restore([], []) == [];
  }

  /** The last process to start could not read the file. */
  predicate IsShut(marks: seq<Mark>)
  {
    marks != [] && ShutAfter(IsShut(marks[..|marks| - 1]), marks[|marks| - 1])
  }

  predicate ShutAfter(shut: bool, m: Mark)
  {
    if m.Ended? then !m.readable else shut && !(m.Written? && m.w.Died?)
  }

  /** Nothing is written by a process that could not read the file. */
  predicate WritesOpen(marks: seq<Mark>)
  {
    forall j :: 0 <= j < |marks| && marks[j].Written? ==> !IsShut(marks[..j])
  }

  lemma MarkShuts(s: Producer, e: Event, k: Key)
    ensures MarkOf(s, e, k).Written? ==> !s.blocked
    ensures Step(s, e).blocked == ShutAfter(s.blocked, MarkOf(s, e, k))
  {
    hide SetReceipt, PrepareAll, Snapshot, Commit, Restore, Startable;
  }

  lemma {:induction false} RunShuts(events: seq<Event>, k: Key)
    ensures Run(EMPTY, events).blocked == IsShut(Marks(events, k)) && WritesOpen(Marks(events, k))
  {
    hide Step, MarkOf, ShutAfter;
    if events != [] {
      var n := |events| - 1;
      var marks := Marks(events, k);
      RunShuts(events[..n], k);
      MarkShuts(Run(EMPTY, events[..n]), events[n], k);
      assert marks[..n] == Marks(events[..n], k);
      WritesOpenSnoc(marks);
    }
  }

  lemma WritesOpenSnoc(marks: seq<Mark>)
    requires marks != []
    ensures var n := |marks| - 1;
      WritesOpen(marks) <==> WritesOpen(marks[..n]) && (marks[n].Written? ==> !IsShut(marks[..n]))
  {
    hide IsShut;
    var n := |marks| - 1;
    assert forall j :: 0 <= j < n ==> marks[..n][..j] == marks[..j] && marks[..n][j] == marks[j];
    if WritesOpen(marks) {
      assert forall j :: 0 <= j < n && marks[..n][j].Written? ==> marks[j].Written?;
    }
  }

  /** Over every run, memory and file amount to two copies of one entry for each execution. */
  lemma {:induction false} RunTurns(events: seq<Event>)
    ensures Kept(Run(EMPTY, events))
    ensures forall k :: CardOf(Run(EMPTY, events), k) == Play(Marks(events, k))
  {
    hide Step, Kept, CardOf, MarkOf, Turn;
    if events == [] {
      NothingIsKept();
    } else {
      var front, e := events[..|events| - 1], events[|events| - 1];
      RunTurns(front);
      StepTurns(Run(EMPTY, front), e);
      forall k
        ensures CardOf(Run(EMPTY, events), k) == Play(Marks(events, k))
      {
        assert Marks(events, k)[..|events| - 1] == Marks(front, k);
      }
    }
  }

  predicate Stores(m: Mark)
  {
    m.Written? && Replaces(m.w)
  }

  /** The process ends, at this write or between two steps. */
  predicate Ends(m: Mark)
  {
    m.Ended? || (m.Written? && m.w.Died?)
  }

  /** The last write that replaced the file. */
  function LastStored(marks: seq<Mark>): (q: Option<nat>)
    ensures q.Some? ==> q.value < |marks| && Stores(marks[q.value])
  {
    if marks == [] then None
    else if Stores(marks[|marks| - 1]) then Some(|marks| - 1)
    else LastStored(marks[..|marks| - 1])
  }

  /** The last write that replaced the file carried the observation. */
  predicate SeenOnDisk(marks: seq<Mark>)
  {
    LastStored(marks).Some? && marks[LastStored(marks).value].seen
  }

  /**
   * The observation was recorded for good: by an acknowledgement that returned, or by one that did not,
   * but whose write replaced the file and was the last to do so when the process ended.
   */
  predicate WasObserved(marks: seq<Mark>)
  {
    exists j :: 0 <= j < |marks| && RecordsAt(marks, j)
  }

  predicate RecordsAt(marks: seq<Mark>, j: nat)
    requires j < |marks|
  {
    marks[j] == Written(true, Wrote) || (Ends(marks[j]) && SeenOnDisk(marks[..j + 1]))
  }

  lemma WasObservedSnoc(marks: seq<Mark>)
    requires marks != []
    ensures WasObserved(marks) <==> WasObserved(marks[..|marks| - 1]) || RecordsAt(marks, |marks| - 1)
  {
    hide SeenOnDisk;
    var n := |marks| - 1;
    var front := marks[..n];
    assert forall j :: 0 <= j < n ==> front[..j + 1] == marks[..j + 1] && front[j] == marks[j];
    if WasObserved(front) {
      var j :| 0 <= j < n && RecordsAt(front, j);
      assert RecordsAt(marks, j);
    }
    if WasObserved(marks) {
      var j :| 0 <= j < |marks| && RecordsAt(marks, j);
      assert j < n ==> RecordsAt(front, j);
    }
  }

  /** When memory and file know of the observation. */
  lemma {:induction false} SeenExactly(marks: seq<Mark>)
    requires WritesOpen(marks)
    ensures Play(marks).memory.Seen? <==> !IsShut(marks) && WasObserved(marks)
    ensures Play(marks).disk.Seen? <==> WasObserved(marks) || SeenOnDisk(marks)
  {
    hide WasObserved, WritesOpen;
    if marks == [] {
      assert !WasObserved([]) by { NothingObserved(); }
    } else {
      WritesOpenSnoc(marks);
      SeenExactly(marks[..|marks| - 1]);
      WasObservedSnoc(marks);
      assert marks[..|marks|] == marks;
    }
  }

  lemma NothingObserved()
    ensures !WasObserved([])
  {
  }

  /**
   * What memory still knows of the execution: nothing before it is issued, once it is cleared without a
   * committed result, or in a process that could not read the file; otherwise, after the process ended,
   * what it knew at the last write that had replaced the file.
   */
  predicate IsKnown(marks: seq<Mark>)
    decreases |marks|, 1
  {
    marks != [] &&
    var front, m := marks[..|marks| - 1], marks[|marks| - 1];
    if Ends(m) then m != Ended(false) && KnownOnDisk(marks)
    else if m.Dropped? then !IsShut(front) && WasObserved(front)
    else m.Issued? || m == Written(true, Wrote) || IsKnown(front)
  }

  predicate KnownOnDisk(marks: seq<Mark>)
    decreases |marks|, 0
  {
    match LastStored(marks)
    case None => false
    case Some(q) => marks[q].seen || IsKnown(marks[..q])
  }

  lemma {:induction false} KnownExactly(marks: seq<Mark>)
    requires WritesOpen(marks)
    ensures !Play(marks).memory.Unknown? <==> IsKnown(marks)
    ensures !Play(marks).disk.Unknown? <==> KnownOnDisk(marks)
    decreases |marks|
  {
    hide WasObserved, WritesOpen, IsShut;
    if marks != [] {
      var n := |marks| - 1;
      WritesOpenSnoc(marks);
      KnownExactly(marks[..n]);
      SeenExactly(marks[..n]);
      if LastStored(marks[..n]).Some? {
        var q := LastStored(marks[..n]).value;
        assert marks[..n][..q] == marks[..q] && marks[..n][q] == marks[q];
      }
    }
  }

  /** Over every run: when the observation of a result is in memory. */
  lemma ObservedExactly(events: seq<Event>, k: Key)
    ensures var s := Run(EMPTY, events);
      ObservedAt(s.results, k) <==> !s.blocked && WasObserved(Marks(events, k))
  {
    hide WasObserved, Marks, Run, WritesOpen, IsShut;
    RunTurns(events);
    RunShuts(events, k);
    SeenExactly(Marks(events, k));
    assert CardOf(Run(EMPTY, events), k) == Play(Marks(events, k));
  }

  /** What retains a work: an execution of it, in scope, that memory knows and has not seen observed. */
  lemma RetainedIsOwed(s: Producer, scope: Scope, w: string)
    requires Consistent(s)
    ensures w in Retained(s.results, s.tasks, scope) <==>
      exists k :: k in s.issued && InScope(k, scope) && s.issued[k].id == w && EntryOf(s, k) == Owed
  {
    TaskWorksMean(s.results, s.tasks, scope, w);
    SavedWorksMean(s.results, scope, w);
    if w in TaskWorks(s.results, s.tasks, scope) {
      var i :| 0 <= i < |s.tasks| && HoldsWork(s.results, s.tasks[i], scope) && s.tasks[i].flow.value.work.value.id == w;
      assert SoundTask(s.tasks[i], s.results, s.issued);
      assert LiveAt(s.tasks[i], TaskKey(s.tasks[i]));
      assert EntryOf(s, TaskKey(s.tasks[i])) == Owed;
    } else if w in SavedWorks(s.results, scope) {
      var i :| 0 <= i < |s.results| && KeepsWork(s.results[i].1, scope) && s.results[i].1.work.value.id == w;
      IndexLookup(s.results, i);
      assert EntryOf(s, s.results[i].0) == Owed;
    }
    forall k | k in s.issued && InScope(k, scope) && s.issued[k].id == w && EntryOf(s, k) == Owed
      ensures w in Retained(s.results, s.tasks, scope)
    {
      OwedIsRetained(s, scope, k);
    }
  }

  lemma OwedIsRetained(s: Producer, scope: Scope, k: Key)
    requires Consistent(s) && k in s.issued && InScope(k, scope) && EntryOf(s, k) == Owed
    ensures s.issued[k].id in Retained(s.results, s.tasks, scope)
  {
    var w := s.issued[k].id;
    TaskWorksMean(s.results, s.tasks, scope, w);
    SavedWorksMean(s.results, scope, w);
    if Lookup(s.results, k).Some? {
      var i := LookupIndex(s.results, k);
      assert KeepsWork(s.results[i].1, scope);
    } else {
      var i :| 0 <= i < |s.tasks| && LiveAt(s.tasks[i], k);
      assert SoundTask(s.tasks[i], s.results, s.issued);
      assert HoldsWork(s.results, s.tasks[i], scope);
    }
  }

  /**
   * Over every run, whatever is cleared, written, lost or restarted on the way, a work is out of the
   * retained set exactly when the result of each execution it was ever given in that scope was
   * observed, or is not known. A process that could not read the file knows of no observation.
   */
  lemma {:induction false} WorkIsReleasedExactly(events: seq<Event>, scope: Scope, w: string)
    ensures var s := Run(EMPTY, events);
      w !in Retained(s.results, s.tasks, scope) <==>
        forall k :: k in s.issued && InScope(k, scope) && s.issued[k].id == w ==>
          (!s.blocked && WasObserved(Marks(events, k))) || !IsKnown(Marks(events, k))
  {
    hide Run, Retained, WasObserved, IsKnown, Marks, Consistent, EntryOf, Play, IsShut, WritesOpen;
    var s := Run(EMPTY, events);
    RunTurns(events);
    RetainedIsOwed(s, scope, w);
    forall k
      ensures EntryOf(s, k) == Owed <==>
        !(!s.blocked && WasObserved(Marks(events, k))) && IsKnown(Marks(events, k))
    {
      RunShuts(events, k);
      assert CardOf(s, k) == Play(Marks(events, k));
      SeenExactly(Marks(events, k));
      KnownExactly(Marks(events, k));
    }
  }

  // ---------- Works that are lost without being observed ----------

  lemma {:induction false} MarksPrefix(events: seq<Event>, k: Key, n: nat)
    requires n <= |events|
    ensures Marks(events[..n], k) == Marks(events, k)[..n]
  {
    hide MarkOf, Run, Step;
    if n == |events| {
      assert events[..n] == events;
    } else {
      var m := |events| - 1;
      MarksPrefix(events[..m], k, n);
      assert events[..m][..n] == events[..n];
    }
  }

  /** Only a known execution is acknowledged, and an execution is issued at most once. */
  lemma MarkIsTimely(s: Producer, e: Event, k: Key)
    ensures MarkOf(s, e, k).Issued? ==> k !in s.issued && k in Step(s, e).issued
    ensures MarkOf(s, e, k).Written? && MarkOf(s, e, k).seen ==> EntryOf(s, k) != Unknown
  {
  }

  /** The process ended at `j`, before any write since `i` had replaced the file. */
  predicate EndsUnstored(marks: seq<Mark>, i: nat, j: nat)
  {
    i < j < |marks| && Ends(marks[j]) && forall q :: i < q <= j ==> !Stores(marks[q])
  }

  /** Since `i` a process started that could not read the file, and it is still the last. */
  predicate HiddenSince(marks: seq<Mark>, i: nat)
  {
    IsShut(marks) && exists j :: i < j < |marks| && marks[j].Ended?
  }

  /** The execution issued at `i` is lost, in memory and on disk, as the ends and writes since say. */
  ghost predicate LostAsSaid(marks: seq<Mark>, i: nat)
  {
    var card := Play(marks);
    var lost := exists j: nat :: EndsUnstored(marks, i, j);
    && (card.memory.Unknown? <==> lost || HiddenSince(marks, i))
    && (!card.disk.Unknown? <==> !lost && exists q :: i < q < |marks| && Stores(marks[q]))
  }

  lemma LostSnoc(marks: seq<Mark>, i: nat)
    requires i + 1 < |marks| && LostAsSaid(marks[..|marks| - 1], i)
    requires var m := marks[|marks| - 1];
      && !m.Dropped? && !m.Issued?
      && (m.Written? ==> !IsShut(marks[..|marks| - 1]))
      && (m.Written? && m.seen ==> !Play(marks[..|marks| - 1]).memory.Unknown?)
    ensures LostAsSaid(marks, i)
  {
    var n := |marks| - 1;
    var front, m := marks[..n], marks[n];
    EndsUnstoredSnoc(marks, i);
    HiddenSinceSnoc(marks, i);
    hide EndsUnstored;
    assert forall q :: 0 <= q < n ==> front[q] == marks[q];
    assert EndsUnstored(marks, i, n) <==> Ends(m) && forall q :: i < q <= n ==> !Stores(marks[q]) by {
      EndsHere(marks, i);
    }
  }

  lemma HiddenSinceSnoc(marks: seq<Mark>, i: nat)
    requires i + 1 < |marks|
    ensures var n := |marks| - 1;
      HiddenSince(marks, i) <==>
        if marks[n].Ended? then !marks[n].readable
        else HiddenSince(marks[..n], i) && !(marks[n].Written? && marks[n].w.Died?)
  {
    hide IsShut;
    var n := |marks| - 1;
    assert forall j :: 0 <= j < n ==> marks[..n][j] == marks[j];
    assert IsShut(marks) == ShutAfter(IsShut(marks[..n]), marks[n]) by { ShutSnoc(marks); }
  }

  lemma ShutSnoc(marks: seq<Mark>)
    requires marks != []
    ensures IsShut(marks) == ShutAfter(IsShut(marks[..|marks| - 1]), marks[|marks| - 1])
  {
  }

  lemma EndsHere(marks: seq<Mark>, i: nat)
    requires i + 1 < |marks|
    ensures var n := |marks| - 1;
      EndsUnstored(marks, i, n) <==> Ends(marks[n]) && forall q :: i < q <= n ==> !Stores(marks[q])
  {
  }

  /** Until it is issued nothing is known of it, and once it is issued memory knows it. */
  lemma LostNotYet(marks: seq<Mark>)
    requires marks != [] && marks[|marks| - 1].Issued? && Play(marks[..|marks| - 1]) == Card(Unknown, Unknown)
    ensures LostAsSaid(marks, |marks| - 1)
  {
  }

  /**
   * An execution that is never cleared without a committed result is lost exactly when, after it was
   * issued, the process ended before any write replaced the file; otherwise it is out of sight exactly
   * while a process lasts that could not read the file.
   */
  lemma {:induction false} LostExactly(events: seq<Event>, k: Key, i: nat)
    requires i < |events| && Marks(events, k)[i].Issued?
    requires forall j :: 0 <= j < |events| ==> !Marks(events, k)[j].Dropped?
    ensures k in Run(EMPTY, events).issued && LostAsSaid(Marks(events, k), i)
    ensures !IsKnown(Marks(events, k)) <==>
      (exists j: nat :: EndsUnstored(Marks(events, k), i, j)) || HiddenSince(Marks(events, k), i)
  {
    hide Step, MarkOf, IsKnown, EndsUnstored, LostAsSaid, Play, IsShut, HiddenSince, WritesOpen;
    var n := |events| - 1;
    var front := events[..n];
    var marks := Marks(events, k);
    var s := Run(EMPTY, front);
    MarksPrefix(events, k, n);
    RunTurns(front);
    StepTurns(s, events[n]);
    MarkIsTimely(s, events[n], k);
    RunShuts(events, k);
    WritesOpenSnoc(marks);
    assert CardOf(s, k) == Play(marks[..n]);
    assert marks[n] == MarkOf(s, events[n], k);
    if i < n {
      LostExactly(front, k, i);
      LostSnoc(marks, i);
    } else {
      IssuedFirst(front, k);
      LostNotYet(marks);
    }
    KnownExactly(marks);
    LostSays(marks, i);
  }

  lemma LostSays(marks: seq<Mark>, i: nat)
    requires LostAsSaid(marks, i)
    ensures Play(marks).memory.Unknown? <==> (exists j: nat :: EndsUnstored(marks, i, j)) || HiddenSince(marks, i)
  {
  }

  lemma EndsUnstoredSnoc(marks: seq<Mark>, i: nat)
    requires i + 1 < |marks|
    ensures var front := marks[..|marks| - 1];
      (exists j: nat :: EndsUnstored(marks, i, j)) <==>
        (exists j: nat :: EndsUnstored(front, i, j)) || EndsUnstored(marks, i, |marks| - 1)
  {
    hide Stores, Ends;
    var n := |marks| - 1;
    var front := marks[..n];
    assert forall j: nat :: EndsUnstored(front, i, j) ==> EndsUnstored(marks, i, j);
    assert forall j: nat :: EndsUnstored(marks, i, j) && j < n ==> EndsUnstored(front, i, j);
  }

  /** Nothing is known of an execution that was never issued. */
  lemma {:induction false} IssuedFirst(events: seq<Event>, k: Key)
    requires k !in Run(EMPTY, events).issued
    ensures Play(Marks(events, k)) == Card(Unknown, Unknown)
  {
    RunTurns(events);
    var s := Run(EMPTY, events);
    hide Run, Marks, Play;
    assert CardOf(s, k) == Play(Marks(events, k));
    NeverIssuedUnknown(s, k);
    NeverIssuedUnknown(Reopened(s), k);
  }

  lemma NeverIssuedUnknown(s: Producer, k: Key)
    requires Consistent(s) && k !in s.issued
    ensures EntryOf(s, k) == Unknown
  {
    forall i | 0 <= i < |s.tasks|
      ensures !LiveAt(s.tasks[i], k)
    {
      assert SoundTask(s.tasks[i], s.results, s.issued);
    }
  }

  // ---------- What a failed write leaves for the next process ----------

  /** A task whose write fails is gone with the process, and its work is released though nothing was observed. */
  lemma UnwrittenWorkIsLost(t: Task)
    requires Startable(EMPTY, t) && Scoped(t)
    ensures var events := [EStart(t), EPersist(Threw(false)), ERestart(true)];
            var before, after := Run(EMPTY, events[..2]), Run(EMPTY, events);
            var scope, w := t.flow.value.scope.value, t.flow.value.work.value.id;
      && w in Retained(before.results, before.tasks, scope)
      && after.tasks == [] && w !in Retained(after.results, after.tasks, scope)
      && !WasObserved(Marks(events, TaskKey(t)))
  {
    var events := [EStart(t), EPersist(Threw(false)), ERestart(true)];
    var before := StartedUnwritten(t);
    assert events[..2] + [ERestart(true)] == events && events[..2] == [EStart(t), EPersist(Threw(false))];
    RunNext(events[..2], ERestart(true));
    hide Run, Marks, WasObserved;
    TaskWorksMean(before.results, before.tasks, t.flow.value.scope.value, t.flow.value.work.value.id);
    assert HoldsWork(before.results, before.tasks[0], t.flow.value.scope.value);
    assert Restore([], []) == [];
    ObservedExactly(events, TaskKey(t));
  }

  lemma RunNext(events: seq<Event>, e: Event)
    ensures Run(EMPTY, events + [e]) == Step(Run(EMPTY, events), e)
  {
    assert (events + [e])[..|events|] == events;
  }

  lemma StartedUnwritten(t: Task) returns (s: Producer)
    requires Startable(EMPTY, t)
    ensures s == Run(EMPTY, [EStart(t), EPersist(Threw(false))])
    ensures s.tasks == [t] && s.results == [] && s.stored == EMPTY.stored
  {
    var started := Start(EMPTY, t);
    assert [] + [EStart(t)] == [EStart(t)];
    RunNext([], EStart(t));
    assert Run(EMPTY, [EStart(t)]) == started && started.tasks == [t];
    assert [EStart(t)] + [EPersist(Threw(false))] == [EStart(t), EPersist(Threw(false))];
    RunNext([EStart(t)], EPersist(Threw(false)));
    hide Run;
    PreparesOne(t, t, started.deliveries);
    s := started;
  }

  /**
   * An acknowledgement whose write fails after it replaced the file is taken back in memory, and made
   * by the next process all the same.
   */
  lemma ThrownReceiptReturns(s: Producer, e: Event, k: Key)
    requires Kept(s) && EntryOf(s, k) == Owed && !s.blocked
    requires e.EAcknowledge? && FailsReplacing(e.w) && Acknowledges(s, e, k)
    requires IsNew(s, e.id, e.revision, e.receipt) && Reaches(s, e.w)
    ensures !ObservedAt(Step(s, e).results, k) && ObservedAt(Step(Step(s, e), ERestart(true)).results, k)
  {
    hide Step, Kept, IsNew, Reaches, Acknowledges;
    StepTurns(s, e);
    StepTurns(Step(s, e), ERestart(true));
    assert MarkOf(s, e, k) == Written(true, e.w);
    assert CardOf(Step(s, e), k) == Turn(CardOf(s, k), MarkOf(s, e, k));
    assert MarkOf(Step(s, e), ERestart(true), k) == Ended(true);
    assert CardOf(Step(Step(s, e), ERestart(true)), k) == Turn(CardOf(Step(s, e), k), Ended(true));
  }

  predicate FailsReplacing(w: Write)
  {
    w == Threw(true) || w == Interrupted
  }

  /** A run that reaches such an acknowledgement. */
  lemma ThrownReceiptHappens(w: Write)
    requires FailsReplacing(w)
    ensures var events := [EDeliver(map["session" := HOME]), EStart(JOB), EEnd(0, Completed, false), EPersist(Wrote)];
            var e := EAcknowledge(ResultId("execution"), "1", Receipt.Observed, w);
      && !ObservedAt(Run(EMPTY, events + [e]).results, TaskKey(JOB))
      && ObservedAt(Run(EMPTY, events + [e] + [ERestart(true)]).results, TaskKey(JOB))
  {
    var events := [EDeliver(map["session" := HOME]), EStart(JOB), EEnd(0, Completed, false), EPersist(Wrote)];
    var e := EAcknowledge(ResultId("execution"), "1", Receipt.Observed, w);
    var s := JobCommitted(w);
    RunTurns(events);
    ThrownReceiptReturns(s, e, TaskKey(JOB));
    assert (events + [e])[..4] == events && (events + [e] + [ERestart(true)])[..5] == events + [e];
  }

  /** The job once it ended, before anything was prepared. */
  lemma JobEnded() returns (s: Producer)
    ensures s == Run(EMPTY, [EDeliver(map["session" := HOME]), EStart(JOB), EEnd(0, Completed, false)])
    ensures s.tasks == [JOB.(status := Completed)] && s.results == [] && s.deliveries == map["session" := HOME]
    ensures !s.blocked
  {
    var a, b, c := EDeliver(map["session" := HOME]), EStart(JOB), EEnd(0, Completed, false);
    assert [] + [a] == [a] && [a] + [b] == [a, b] && [a, b] + [c] == [a, b, c];
    RunNext([], a);
    RunNext([a], b);
    RunNext([a, b], c);
    var delivered := EMPTY.(deliveries := map["session" := HOME]);
    assert Run(EMPTY, [a]) == delivered;
    hide Run;
    var started := Start(delivered, JOB);
    assert Run(EMPTY, [a, b]) == started && started.tasks == [JOB];
    s := Run(EMPTY, [a, b, c]);
    assert started.tasks[0 := JOB.(status := Completed)] == [JOB.(status := Completed)];
  }

  /** The job with its result. */
  function JobPrepared(): Task
  {
    var metadata := Metadata(ResultId("execution"), "execution", "1", Success, "log");
    JOB.(status := Completed, flow := Some(JOB.flow.value.(result := Some(Terminal(metadata, false, false, true)))))
  }

  lemma JobPrepares()
    ensures var ended, deliveries := JOB.(status := Completed), map["session" := HOME];
      && PrepareAll([ended], deliveries) == ([JobPrepared()], true)
      && PrepareAll([JobPrepared()], deliveries) == ([JobPrepared()], true)
  {
    PreparesOne(JOB.(status := Completed), JobPrepared(), map["session" := HOME]);
    PreparesOne(JobPrepared(), JobPrepared(), map["session" := HOME]);
  }

  lemma JobCommitted(w: Write) returns (s: Producer)
    ensures s == Run(EMPTY, [EDeliver(map["session" := HOME]), EStart(JOB), EEnd(0, Completed, false), EPersist(Wrote)])
    ensures EntryOf(s, TaskKey(JOB)) == Owed && !s.blocked
    ensures IsNew(s, ResultId("execution"), "1", Receipt.Observed) && (!w.Refused? ==> Reaches(s, w))
    ensures Acknowledges(s, EAcknowledge(ResultId("execution"), "1", Receipt.Observed, w), TaskKey(JOB))
  {
    var events := [EDeliver(map["session" := HOME]), EStart(JOB), EEnd(0, Completed, false)];
    assert events + [EPersist(Wrote)]
        == [EDeliver(map["session" := HOME]), EStart(JOB), EEnd(0, Completed, false), EPersist(Wrote)];
    var ended := JobEnded();
    RunNext(events, EPersist(Wrote));
    hide Run;
    JobPrepares();
    CommitsOne(JobPrepared());
    hide PrepareAll, Commit, Snapshot;
    s := Run(EMPTY, events + [EPersist(Wrote)]);
    assert s.tasks == [JobPrepared()] && s.results == [(TaskKey(JOB), SavedOf(JobPrepared()))];
  }

  lemma PreparesOne(t: Task, after: Task, deliveries: map<string, Scope>)
    requires Prepare(t, deliveries) == Some(after)
    ensures PrepareAll([t], deliveries) == ([after], true)
  {
    PrepareFirst([t], deliveries);
    assert PrepareAll([t][1..], deliveries) == ([], true) && [after] + [] == [after];
  }

  lemma CommitsOne(t: Task)
    requires HasResult(t)
    ensures Commit([], [t]) == [(TaskKey(t), SavedOf(t))]
  {
    assert [t][1..] == [] && ResultEntries([]) == [];
    var entries := ResultEntries([t]);
    assert entries == [(TaskKey(t), SavedOf(t))];
    assert PutAll([], entries) == PutAll(Put([], entries[0].0, entries[0].1), entries[1..]);
  }
}
