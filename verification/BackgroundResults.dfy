// The result map of upstream/background-flow/runtime.ts, which outlives the live tasks, and the
// acknowledgements that scripts/background-flow-transform.mjs wires around it.
module BackgroundResults {
  import opened JsMap
  import opened BackgroundRecords

  predicate InScope(k: Key, scope: Scope)
  {
    k.0 == scope.sessionId && k.1 == scope.branchId
  }

  // ---------- Preparing a result ----------

  function ResultId(execution: string): string
  {
    "bg-result:" + execution
  }

  function TerminalStatus(s: Status): Option<ResultStatus>
  {
    match s
    case Completed => Some(Success)
    case Stopped => Some(Cancelled)
    case Failed => Some(Failure)
    case TimedOut => Some(Failure)
    case _ => None
  }

  predicate Controls(t: Task, deliveries: map<string, Scope>)
  {
    || (t.flow.Some? && t.flow.value.result.Some?)
    || (Scoped(t) && t.flow.value.scope.value.sessionId in deliveries
        && deliveries[t.flow.value.scope.value.sessionId] == t.flow.value.scope.value)
  }

  predicate ToPrepare(t: Task, deliveries: map<string, Scope>)
  {
    && Scoped(t) && t.flow.value.work.Some? && t.flow.value.result.None? && Controls(t, deliveries) && !t.status.Running?
  }

  /** The task with its terminal result; none when the result is incomplete, which throws. */
  function Prepare(t: Task, deliveries: map<string, Scope>): Option<Task>
  {
    if !ToPrepare(t, deliveries) then Some(t)
    else if TerminalStatus(t.status).None? || t.logFile.None? || t.logFile.value == "" then None
    else
      var execution := t.flow.value.execution;
      var metadata := Metadata(ResultId(execution), execution, "1", TerminalStatus(t.status).value, t.logFile.value);
      var result := Terminal(metadata, false, false, t.notifyOnExit && !t.exitNotified);
      Some(t.(flow := Some(t.flow.value.(result := Some(result)))))
  }

  /** Prepare every task in turn; the first incomplete one ends the pass. */
  function PrepareAll(tasks: seq<Task>, deliveries: map<string, Scope>): (seq<Task>, bool)
  {
    if tasks == [] then ([], true)
    else
      match Prepare(tasks[0], deliveries)
      case None => (tasks, false)
      case Some(t) =>
        var rest := PrepareAll(tasks[1..], deliveries);
        ([t] + rest.0, rest.1)
  }

  // ---------- The map ----------

  /** The entries that live tasks contribute, in the order of the tasks. */
  function ResultEntries(tasks: seq<Task>): seq<(Key, Saved)>
  {
    if tasks == [] then []
    else (if HasResult(tasks[0]) then [(TaskKey(tasks[0]), SavedOf(tasks[0]))] else []) + ResultEntries(tasks[1..])
  }

  function Commit(results: seq<(Key, Saved)>, tasks: seq<Task>): seq<(Key, Saved)>
  {
    PutAll(results, ResultEntries(tasks))
  }

  /**
   * The sessions of the results that change while `entries` are set one by one, in the order in which
   * they first change, after those found `changed` so far.
   */
  function Changed(changed: seq<string>, results: seq<(Key, Saved)>, entries: seq<(Key, Saved)>): seq<string>
    decreases |entries|
  {
    if entries == [] then changed
    else
      var (k, v) := entries[0];
      Changed(Noted(changed, results, k, v), Put(results, k, v), entries[1..])
  }

  function Noted(changed: seq<string>, results: seq<(Key, Saved)>, k: Key, v: Saved): seq<string>
  {
    if Lookup(results, k) == Some(v) || k.0 in changed then changed else changed + [k.0]
  }

  /**
   * The deliveries whose callback is called, in order, and whether one of them threw: those of the
   * sessions in `throwing` do, and the first that does ends the commit.
   */
  function Tell(sessions: seq<string>, deliveries: map<string, Scope>, throwing: set<string>): (seq<string>, bool)
  {
    if sessions == [] then ([], false)
    else if sessions[0] !in deliveries then Tell(sessions[1..], deliveries, throwing)
    else if sessions[0] in throwing then ([sessions[0]], true)
    else
      var (told, threw) := Tell(sessions[1..], deliveries, throwing);
      ([sessions[0]] + told, threw)
  }

  /** The retained results to store beside the task records; live tasks win. */
  function Snapshot(results: seq<(Key, Saved)>, tasks: seq<Task>): seq<Saved>
  {
    Values(PutAll(PutAll([], KeyResults(Values(results))), ResultEntries(tasks)))
  }

  /** Restoring drops a work whose revision is no safe integer. */
  function Cleaned(v: Saved): Saved
  {
    if v.work.Some? && SafeWork(v.work.value) then v else v.(work := None)
  }

  function CleanedAll(entries: seq<(Key, Saved)>): seq<(Key, Saved)>
  {
    if entries == [] then [] else [(entries[0].0, Cleaned(entries[0].1))] + CleanedAll(entries[1..])
  }

  function Restore(results: seq<(Key, Saved)>, records: seq<Saved>): seq<(Key, Saved)>
  {
    PutAll(results, CleanedAll(KeyResults(records)))
  }

  datatype Receipt = Delivered | Observed

  predicate Flag(v: Saved, receipt: Receipt)
  {
    match receipt
    case Delivered => v.result.delivered
    case Observed => v.result.observed
  }

  function Flagged(result: Terminal, receipt: Receipt, value: bool): Terminal
  {
    match receipt
    case Delivered => result.(delivered := value)
    case Observed => result.(observed := value)
  }

  predicate Names(v: Saved, id: string, revision: string)
  {
    v.result.metadata.id == id && v.result.metadata.revision == revision
  }

  /** Set or clear a receipt on the first result so named, and say whether that changed it; none throws. */
  function SetReceipt(results: seq<(Key, Saved)>, id: string, revision: string, receipt: Receipt, value: bool)
    : Option<(seq<(Key, Saved)>, bool)>
  {
    if results == [] then None
    else if Names(results[0].1, id, revision) then
      if Flag(results[0].1, receipt) == value then Some((results, false))
      else
        var v := results[0].1.(result := Flagged(results[0].1.result, receipt, value));
        Some(([(results[0].0, v)] + results[1..], true))
    else
      match SetReceipt(results[1..], id, revision, receipt, value)
      case None => None
      case Some((rest, changed)) => Some(([results[0]] + rest, changed))
  }

  predicate ObservedAt(results: seq<(Key, Saved)>, k: Key)
  {
    Lookup(results, k).Some? && Lookup(results, k).value.result.observed
  }

  /** The works still owed something: those of unfinished or unobserved executions. */
  function Retained(results: seq<(Key, Saved)>, tasks: seq<Task>, scope: Scope): set<string>
  {
    TaskWorks(results, tasks, scope) + SavedWorks(results, scope)
  }

  predicate HoldsWork(results: seq<(Key, Saved)>, t: Task, scope: Scope)
  {
    && t.flow.Some? && t.flow.value.work.Some? && t.flow.value.scope == Some(scope)
    && (t.status.Running? || !ObservedAt(results, ResultKey(scope, t.flow.value.execution)))
  }

  function TaskWorks(results: seq<(Key, Saved)>, tasks: seq<Task>, scope: Scope): set<string>
  {
    if tasks == [] then {}
    else
      TaskWorks(results, tasks[..|tasks| - 1], scope)
      + (if HoldsWork(results, tasks[|tasks| - 1], scope) then {tasks[|tasks| - 1].flow.value.work.value.id} else {})
  }

  predicate KeepsWork(v: Saved, scope: Scope)
  {
    v.scope == scope && v.work.Some? && !v.result.observed
  }

  function SavedWorks(results: seq<(Key, Saved)>, scope: Scope): set<string>
  {
    if results == [] then {}
    else
      SavedWorks(results[..|results| - 1], scope)
      + (if KeepsWork(results[|results| - 1].1, scope) then {results[|results| - 1].1.work.value.id} else {})
  }

  // ---------- What a commit tells ----------

  lemma {:induction false} PutKeepsOthers(m: seq<(Key, Saved)>, entries: seq<(Key, Saved)>, k: Key)
    requires LastValue(entries, k).None?
    ensures Lookup(PutAll(m, entries), k) == Lookup(m, k)
    decreases |entries|
  {
    if entries != [] {
      PutLookup(m, entries[0].0, entries[0].1, k);
      PutKeepsOthers(Put(m, entries[0].0, entries[0].1), entries[1..], k);
    }
  }

  lemma {:induction false} ChangedGrows(changed: seq<string>, m: seq<(Key, Saved)>, entries: seq<(Key, Saved)>)
    ensures changed <= Changed(changed, m, entries)
    decreases |entries|
  {
    if entries != [] {
      var (j, v) := entries[0];
      ChangedGrows(Noted(changed, m, j, v), Put(m, j, v), entries[1..]);
    }
  }

  /** The session of every result that a commit changes is among those to be told. */
  lemma {:induction false} ChangesAreNotified(changed: seq<string>, m: seq<(Key, Saved)>, entries: seq<(Key, Saved)>,
                                              k: Key)
    requires Lookup(PutAll(m, entries), k) != Lookup(m, k)
    ensures k.0 in Changed(changed, m, entries)
    decreases |entries|
  {
    var (j, v) := entries[0];
    var next := Noted(changed, m, j, v);
    PutLookup(m, j, v, k);
    if Lookup(m, j) == Some(v) || j != k {
      ChangesAreNotified(next, Put(m, j, v), entries[1..], k);
    } else {
      ChangedGrows(next, Put(m, j, v), entries[1..]);
      assert k.0 in next && forall i :: 0 <= i < |next| ==> Changed(changed, m, entries)[i] == next[i];
    }
  }

  /** When no execution is committed twice, only sessions with a change are among them. */
  lemma {:induction false} NotifiedAreChanged(changed: seq<string>, m: seq<(Key, Saved)>, entries: seq<(Key, Saved)>,
                                              session: string) returns (k: Key)
    requires Unique(entries) && session in Changed(changed, m, entries) && session !in changed
    ensures k.0 == session && Lookup(PutAll(m, entries), k) != Lookup(m, k)
    decreases |entries|
  {
    var (j, v) := entries[0];
    var rest := Put(m, j, v);
    LastIsLookup(entries[1..], j);
    PutKeepsOthers(rest, entries[1..], j);
    PutLookup(m, j, v, j);
    if Lookup(m, j) != Some(v) && j.0 == session {
      k := j;
    } else {
      var next := Noted(changed, m, j, v);
      k := NotifiedAreChanged(next, rest, entries[1..], session);
      PutLookup(m, j, v, k);
    }
  }

  /** Each session is listed once. */
  predicate Distinct(sessions: seq<string>)
  {
    forall i, j :: 0 <= i < j < |sessions| ==> sessions[i] != sessions[j]
  }

  lemma {:induction false} ChangedDistinct(changed: seq<string>, m: seq<(Key, Saved)>, entries: seq<(Key, Saved)>)
    requires Distinct(changed)
    ensures Distinct(Changed(changed, m, entries))
    decreases |entries|
  {
    if entries != [] {
      var (j, v) := entries[0];
      ChangedDistinct(Noted(changed, m, j, v), Put(m, j, v), entries[1..]);
    }
  }

  /**
   * A session with a changed result is told of it exactly when it has a delivery and no delivery of a
   * session that changed before it throws.
   */
  lemma {:induction false} ToldExactly(sessions: seq<string>, deliveries: map<string, Scope>, throwing: set<string>,
                                       i: nat)
    requires i < |sessions| && Distinct(sessions)
    ensures sessions[i] in Tell(sessions, deliveries, throwing).0 <==>
      sessions[i] in deliveries && forall j :: 0 <= j < i ==> !(sessions[j] in deliveries && sessions[j] in throwing)
  {
    var rest := sessions[1..];
    assert forall j :: 1 <= j < |sessions| ==> sessions[j] == rest[j - 1];
    if i > 0 {
      assert sessions[0] != sessions[i];
      ToldExactly(rest, deliveries, throwing, i - 1);
      assert forall j :: 0 <= j < i - 1 ==> rest[j] == sessions[j + 1];
    } else {
      ToldAreListed(rest, deliveries, throwing);
    }
  }

  lemma {:induction false} ToldAreListed(sessions: seq<string>, deliveries: map<string, Scope>, throwing: set<string>)
    ensures forall s :: s in Tell(sessions, deliveries, throwing).0 ==> s in sessions
  {
    if sessions != [] {
      ToldAreListed(sessions[1..], deliveries, throwing);
    }
  }

  lemma {:induction false} LastIsLookup(entries: seq<(Key, Saved)>, k: Key)
    requires Unique(entries)
    ensures LastValue(entries, k) == Lookup(entries, k)
  {
    if entries != [] {
      LastIsLookup(entries[1..], k);
    }
  }

  // ---------- Snapshot and restore ----------

  /** A task's result names the task's own execution. */
  predicate OwnResults(tasks: seq<Task>)
  {
    forall i :: 0 <= i < |tasks| && HasResult(tasks[i]) ==>
      tasks[i].flow.value.result.value.metadata.execution == tasks[i].flow.value.execution
  }

  lemma {:induction false} PutKeyed(m: seq<(Key, Saved)>, v: Saved)
    requires Keyed(m)
    ensures Keyed(Put(m, ResultKey(v.scope, v.result.metadata.execution), v))
  {
    var k := ResultKey(v.scope, v.result.metadata.execution);
    if m != [] && m[0].0 != k {
      PutKeyed(m[1..], v);
      assert Put(m, k, v)[1..] == Put(m[1..], k, v);
    }
  }

  lemma {:induction false} CommitKeyed(m: seq<(Key, Saved)>, tasks: seq<Task>)
    requires Keyed(m) && OwnResults(tasks)
    ensures Keyed(Commit(m, tasks))
    decreases |tasks|
  {
    if tasks != [] {
      var entries := ResultEntries(tasks);
      assert forall i :: 0 <= i < |tasks[1..]| ==> tasks[1..][i] == tasks[i + 1];
      if HasResult(tasks[0]) {
        PutKeyed(m, SavedOf(tasks[0]));
        assert entries[0] == (TaskKey(tasks[0]), SavedOf(tasks[0])) && entries[1..] == ResultEntries(tasks[1..]);
        CommitKeyed(Put(m, TaskKey(tasks[0]), SavedOf(tasks[0])), tasks[1..]);
      } else {
        assert entries == ResultEntries(tasks[1..]);
        CommitKeyed(m, tasks[1..]);
      }
    }
  }

  lemma {:induction false} CleanedLookup(entries: seq<(Key, Saved)>, k: Key)
    ensures Lookup(CleanedAll(entries), k).Some? == Lookup(entries, k).Some?
  {
    if entries != [] {
      CleanedLookup(entries[1..], k);
    }
  }

  lemma {:induction false} CleanedUnique(entries: seq<(Key, Saved)>)
    requires Unique(entries)
    ensures Unique(CleanedAll(entries))
  {
    if entries != [] {
      CleanedLookup(entries[1..], entries[0].0);
      CleanedUnique(entries[1..]);
    }
  }

  /** Every work that a record carries has a safe revision. */
  predicate SafeWorks(entries: seq<(Key, Saved)>)
  {
    forall i :: 0 <= i < |entries| && entries[i].1.work.Some? ==> SafeWork(entries[i].1.work.value)
  }

  lemma {:induction false} CleanedIsSame(entries: seq<(Key, Saved)>)
    ensures CleanedAll(entries) == entries <==> SafeWorks(entries)
  {
    if entries != [] {
      CleanedIsSame(entries[1..]);
      assert entries == [entries[0]] + entries[1..];
      var cleaned := CleanedAll(entries);
      assert cleaned[0] == (entries[0].0, Cleaned(entries[0].1)) && cleaned[1..] == CleanedAll(entries[1..]);
      assert forall i :: 0 <= i < |entries[1..]| ==> entries[1..][i] == entries[i + 1];
      assert forall i :: 1 <= i < |entries| ==> entries[i] == entries[1..][i - 1];
    }
  }

  /**
   * Restoring a snapshot into a fresh source rebuilds, entry for entry and in order, the map that a
   * commit builds, exactly when every work in it has a safe revision; otherwise it differs only by
   * the works dropped.
   */
  lemma SnapshotRestores(results: seq<(Key, Saved)>, tasks: seq<Task>)
    requires Unique(results) && Keyed(results) && OwnResults(tasks)
    ensures Restore([], Snapshot(results, tasks)) == CleanedAll(Commit(results, tasks))
    ensures Restore([], Snapshot(results, tasks)) == Commit(results, tasks) <==> SafeWorks(Commit(results, tasks))
  {
    var committed := Commit(results, tasks);
    KeyResultsOfValues(results);
    PutAllCopies(results);
    CommitKeyed(results, tasks);
    PutAllUnique(results, ResultEntries(tasks));
    KeyResultsOfValues(committed);
    CleanedUnique(committed);
    PutAllCopies(CleanedAll(committed));
    CleanedIsSame(committed);
  }

  // ---------- Retained works ----------

  lemma {:induction false} TaskWorksMean(results: seq<(Key, Saved)>, tasks: seq<Task>, scope: Scope, w: string)
    ensures w in TaskWorks(results, tasks, scope) <==>
      exists i :: 0 <= i < |tasks| && HoldsWork(results, tasks[i], scope) && tasks[i].flow.value.work.value.id == w
  {
    if tasks != [] {
      var n := |tasks| - 1;
      TaskWorksMean(results, tasks[..n], scope, w);
      assert tasks == tasks[..n] + [tasks[n]];
    }
  }

  lemma {:induction false} SavedWorksMean(results: seq<(Key, Saved)>, scope: Scope, w: string)
    ensures w in SavedWorks(results, scope) <==>
      exists i :: 0 <= i < |results| && KeepsWork(results[i].1, scope) && results[i].1.work.value.id == w
  {
    if results != [] {
      var n := |results| - 1;
      SavedWorksMean(results[..n], scope, w);
      assert results == results[..n] + [results[n]];
    }
  }

  predicate TaskFor(t: Task, scope: Scope, w: string)
  {
    && t.flow.Some? && t.flow.value.scope == Some(scope)
    && t.flow.value.work.Some? && t.flow.value.work.value.id == w
  }

  predicate SavedFor(v: Saved, scope: Scope, w: string)
  {
    v.scope == scope && v.work.Some? && v.work.value.id == w
  }

  /**
   * A work id is out of the retained set exactly when all its tasks in scope are finished with
   * observed results and all its saved results are observed.
   */
  lemma ReleasedExactly(results: seq<(Key, Saved)>, tasks: seq<Task>, scope: Scope, w: string)
    ensures w !in Retained(results, tasks, scope) <==>
      && (forall i :: 0 <= i < |tasks| && TaskFor(tasks[i], scope, w) ==>
            !tasks[i].status.Running? && ObservedAt(results, TaskKey(tasks[i])))
      && (forall i :: 0 <= i < |results| && SavedFor(results[i].1, scope, w) ==> results[i].1.result.observed)
  {
    TaskWorksMean(results, tasks, scope, w);
    SavedWorksMean(results, scope, w);
  }

  lemma {:induction false} LookupIndex(m: seq<(Key, Saved)>, k: Key) returns (i: nat)
    requires Lookup(m, k).Some?
    ensures i < |m| && m[i] == (k, Lookup(m, k).value)
  {
    if m[0].0 == k {
      i := 0;
    } else {
      i := LookupIndex(m[1..], k);
      i := i + 1;
    }
  }

  /** A finished task whose result is in the map, for the same work. */
  predicate Committed(results: seq<(Key, Saved)>, t: Task)
  {
    && !t.status.Running?
    && (Scoped(t) && t.flow.value.work.Some? ==>
          && Lookup(results, TaskKey(t)).Some?
          && Lookup(results, TaskKey(t)).value.work == t.flow.value.work)
  }

  lemma {:induction false} TaskWorksAppend(results: seq<(Key, Saved)>, a: seq<Task>, b: seq<Task>, scope: Scope)
    ensures TaskWorks(results, a + b, scope) == TaskWorks(results, a, scope) + TaskWorks(results, b, scope)
    decreases |b|
  {
    if b == [] {
      assert a + b == a;
    } else {
      var n := |b| - 1;
      assert (a + b)[..|a + b| - 1] == a + b[..n];
      TaskWorksAppend(results, a, b[..n], scope);
    }
  }

  /** Clearing a finished task whose result is committed releases no work. */
  lemma ClearingReleasesNothing(results: seq<(Key, Saved)>, tasks: seq<Task>, i: nat, scope: Scope)
    requires i < |tasks| && Committed(results, tasks[i]) && Keyed(results)
    ensures Retained(results, tasks[..i] + tasks[i + 1..], scope) == Retained(results, tasks, scope)
  {
    hide SavedWorks;
    var t := tasks[i];
    assert tasks == tasks[..i] + ([t] + tasks[i + 1..]);
    TaskWorksAppend(results, tasks[..i], [t] + tasks[i + 1..], scope);
    TaskWorksAppend(results, [t], tasks[i + 1..], scope);
    TaskWorksAppend(results, tasks[..i], tasks[i + 1..], scope);
    assert [t][..0] == [];
    if HoldsWork(results, t, scope) {
      var w := t.flow.value.work.value.id;
      var j := LookupIndex(results, TaskKey(t));
      assert KeepsWork(results[j].1, scope);
      SavedWorksMean(results, scope, w);
    }
  }
}
