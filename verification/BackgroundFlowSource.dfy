// The source object of upstream/background-flow/runtime.ts: its maps and listeners are updated in
// place, one entry and one listener at a time.
module BackgroundFlowHost {
  import Strings
  import opened JsMap
  import opened BackgroundRecords
  import opened BackgroundResults
  import opened BackgroundPublication

  class ExecutionListener {
    const identity: Identity
    var signature: Option<Evidence>
    var health: Option<Health>
    var told: seq<Evidence>

    function Now(): Listener
      reads this
    {
      Listener(identity, signature, health, told)
    }

    constructor (identity: Identity)
      ensures Now() == Subscribed(identity)
    {
      this.identity := identity;
      signature, health, told := None, None, [];
    }

    /** This listener's part of a publication. */
    method Serve(task: Task, probe: Probe) returns (threw: bool)
      modifies this
      ensures (Now(), threw) == PublishTo(old(Now()), task, probe)
    {
      if !Addressed(identity, task) {
        return false;
      }
      var evidence := EvidenceOf(task, identity, health, probe);
      if evidence.None? {
        return true;
      }
      health := evidence.value.health;
      if signature == evidence {
        return false;
      }
      signature := evidence;
      told := told + [evidence.value];
      threw := probe.throws;
    }
  }

  function States(listeners: seq<ExecutionListener>): (states: seq<Listener>)
    reads listeners
    ensures |states| == |listeners|
    ensures forall i :: 0 <= i < |listeners| ==> states[i] == listeners[i].Now()
  {
    if listeners == [] then [] else [listeners[0].Now()] + States(listeners[1..])
  }

  class BackgroundFlowSource {
    var deliveries: map<string, Scope>
    var results: seq<(Key, Saved)>
    var listeners: seq<ExecutionListener>

    constructor ()
      ensures deliveries == map[] && results == [] && listeners == []
    {
      deliveries, results, listeners := map[], [], [];
    }

    /** The given task with its result attached; none where the source throws. */
    method PrepareResult(task: Task) returns (prepared: Option<Task>)
      ensures prepared == Prepare(task, deliveries)
    {
      if task.flow.None? || task.flow.value.scope.None? || task.flow.value.work.None? || task.flow.value.result.Some?
         || !Controls(task, deliveries) || task.status == Running {
        return Some(task);
      }
      var flow := task.flow.value;
      var status := if task.status == Completed then Some(Success)
                    else if task.status == Stopped then Some(ResultStatus.Cancelled)
                    else if task.status in {Failed, TimedOut} then Some(Failure)
                    else None;
      if status.None? || task.logFile == None || task.logFile == Some("") {
        return None;
      }
      var metadata := Metadata("bg-result:" + flow.execution, flow.execution, "1", status.value, task.logFile.value);
      var result := Terminal(metadata, false, false, task.notifyOnExit && !task.exitNotified);
      prepared := Some(task.(flow := Some(flow.(result := Some(result)))));
    }

    method SetResultReceipt(id: string, revision: string, receipt: Receipt, value: bool) returns (changed: Option<bool>)
      modifies `results
      ensures SetReceipt(old(results), id, revision, receipt, value)
           == if changed.None? then None else Some((results, changed.value))
      ensures changed.None? ==> results == old(results)
    {
      hide SetReceipt, Behind, Names, Flag;
      var i := 0;
      BehindNothing(results, SetReceipt(results, id, revision, receipt, value));
      while i < |results| && !Names(results[i].1, id, revision)
        invariant 0 <= i <= |results| && results == old(results)
        invariant SetReceipt(results, id, revision, receipt, value)
               == Behind(results[..i], SetReceipt(results[i..], id, revision, receipt, value))
      {
        NotNamed(results, i, id, revision, receipt, value);
        i := i + 1;
      }
      if i == |results| {
        NothingNamed(results, id, revision, receipt, value);
        return None;
      }
      NamedHere(results, i, id, revision, receipt, value);
      var saved := results[i].1;
      if Flag(saved, receipt) == value {
        return Some(false);
      }
      results := results[i := (results[i].0, saved.(result := Flagged(saved.result, receipt, value)))];
      changed := Some(true);
    }

    /**
     * Commits the results, then calls the deliveries of the sessions that changed. The callbacks of the
     * sessions in `throwing` throw; the first one that is called ends the commit.
     */
    method CommitResults(tasks: seq<Task>, throwing: set<string>) returns (told: seq<string>, threw: bool)
      modifies `results
      ensures results == Commit(old(results), tasks)
      ensures (told, threw) == Tell(Changed([], old(results), ResultEntries(tasks)), deliveries, throwing)
    {
      var changed: seq<string> := [];
      var i := 0;
      ghost var before := results;
      assert tasks[0..] == tasks;
      while i < |tasks|
        invariant 0 <= i <= |tasks|
        invariant PutAll(results, ResultEntries(tasks[i..])) == Commit(before, tasks)
        invariant Changed(changed, results, ResultEntries(tasks[i..])) == Changed([], before, ResultEntries(tasks))
      {
        var task := tasks[i];
        assert tasks[i..][1..] == tasks[i + 1..];
        i := i + 1;
        if !HasResult(task) {
          assert ResultEntries(tasks[i - 1..]) == ResultEntries(tasks[i..]);
          continue;
        }
        assert ResultEntries(tasks[i - 1..])[0] == (TaskKey(task), SavedOf(task));
        assert ResultEntries(tasks[i - 1..])[1..] == ResultEntries(tasks[i..]);
        var key := ResultKey(task.flow.value.scope.value, task.flow.value.execution);
        var value := Saved(task.flow.value.scope.value, task.flow.value.work, task.flow.value.result.value);
        if Lookup(results, key) == Some(value) {
          PutSame(results, key, value);
          continue;
        }
        results := Put(results, key, value);
        var session := task.flow.value.scope.value.sessionId;
        if session !in changed {
          changed := changed + [session];
        }
      }
      told, threw := CallDeliveries(changed, throwing);
    }

    method CallDeliveries(changed: seq<string>, throwing: set<string>) returns (told: seq<string>, threw: bool)
      ensures (told, threw) == Tell(changed, deliveries, throwing)
    {
      told := [];
      ghost var goal := Tell(changed, deliveries, throwing);
      var i := 0;
      assert changed[0..] == changed;
      while i < |changed|
        invariant 0 <= i <= |changed|
        invariant var later := Tell(changed[i..], deliveries, throwing); goal.0 == told + later.0 && goal.1 == later.1
      {
        var session := changed[i];
        assert changed[i..][1..] == changed[i + 1..];
        Strings.Assoc(told, [session], Tell(changed[i + 1..], deliveries, throwing).0);
        i := i + 1;
        if session in deliveries {
          told := told + [session];
          if session in throwing {
            return told, true;
          }
        }
      }
      assert changed[i..] == [] && told + [] == told;
      threw := false;
    }

    method SnapshotResults(tasks: seq<Task>) returns (records: seq<Saved>)
      ensures records == Snapshot(results, tasks)
    {
      var values := Values(results);
      var merged: seq<(Key, Saved)> := [];
      var i := 0;
      assert values[0..] == values;
      while i < |values|
        invariant 0 <= i <= |values|
        invariant PutAll(merged, KeyResults(values[i..])) == PutAll([], KeyResults(values))
      {
        assert KeyResults(values[i..])[1..] == KeyResults(values[i..][1..]) && values[i..][1..] == values[i + 1..];
        merged := Put(merged, ResultKey(values[i].scope, values[i].result.metadata.execution), values[i]);
        i := i + 1;
      }
      i := 0;
      ghost var start := merged;
      assert tasks[0..] == tasks;
      while i < |tasks|
        invariant 0 <= i <= |tasks|
        invariant PutAll(merged, ResultEntries(tasks[i..])) == PutAll(start, ResultEntries(tasks))
      {
        assert tasks[i..][1..] == tasks[i + 1..];
        if HasResult(tasks[i]) {
          assert ResultEntries(tasks[i..])[1..] == ResultEntries(tasks[i + 1..]);
          merged := Put(merged, TaskKey(tasks[i]), SavedOf(tasks[i]));
        } else {
          assert ResultEntries(tasks[i..]) == ResultEntries(tasks[i + 1..]);
        }
        i := i + 1;
      }
      records := Values(merged);
    }

    method RestoreResults(records: seq<Saved>)
      modifies `results
      ensures results == Restore(old(results), records)
    {
      var i := 0;
      ghost var before := results;
      assert records[0..] == records;
      while i < |records|
        invariant 0 <= i <= |records|
        invariant PutAll(results, CleanedAll(KeyResults(records[i..]))) == Restore(before, records)
      {
        var record := records[i];
        ghost var entries := KeyResults(records[i..]);
        assert entries[1..] == KeyResults(records[i..][1..]) && records[i..][1..] == records[i + 1..];
        assert CleanedAll(entries)[1..] == CleanedAll(entries[1..]);
        var work := if record.work.Some? && SafeWork(record.work.value) then record.work else None;
        results := Put(results, ResultKey(record.scope, record.result.metadata.execution),
                       Saved(record.scope, work, record.result));
        i := i + 1;
      }
    }

    /** None when the delivery is detached, which throws. */
    method RetainedWorkIds(scope: Scope, tasks: seq<Task>) returns (works: Option<set<string>>)
      ensures works == if scope.sessionId in deliveries && deliveries[scope.sessionId] == scope
                       then Some(Retained(results, tasks, scope)) else None
    {
      if scope.sessionId !in deliveries || deliveries[scope.sessionId] != scope {
        return None;
      }
      var retained: set<string> := {};
      for i := 0 to |tasks|
        invariant retained == TaskWorks(results, tasks[..i], scope)
      {
        assert tasks[..i + 1][..i] == tasks[..i];
        var task := tasks[i];
        if task.flow.None? || task.flow.value.work.None? || task.flow.value.scope != Some(scope) {
          continue;
        }
        var saved := Lookup(results, ResultKey(scope, task.flow.value.execution));
        if task.status == Running || saved.None? || !saved.value.result.observed {
          retained := retained + {task.flow.value.work.value.id};
        }
      }
      assert tasks[..|tasks|] == tasks;
      for i := 0 to |results|
        invariant retained == TaskWorks(results, tasks, scope) + SavedWorks(results[..i], scope)
      {
        assert results[..i + 1][..i] == results[..i];
        var saved := results[i].1;
        if saved.scope == scope && saved.work.Some? && !saved.result.observed {
          retained := retained + {saved.work.value.id};
        }
      }
      assert results[..|results|] == results;
      works := Some(retained);
    }

    /** Serve the listeners in the order they subscribed, until one of them throws. */
    method Publish(task: Task, probes: seq<Probe>) returns (threw: bool)
      requires |probes| == |listeners|
      requires forall i, j :: 0 <= i < j < |listeners| ==> listeners[i] != listeners[j]
      modifies listeners
      ensures (States(listeners), threw) == PublishAll(old(States(listeners)), task, probes)
    {
      hide PublishTo, PublishAll, After, States;
      var i := 0;
      ghost var before := States(listeners);
      ghost var done: seq<Listener> := [];
      FirstListener(before, task, probes);
      while i < |listeners|
        invariant 0 <= i <= |listeners| && |done| == i
        invariant forall j :: 0 <= j < i ==> listeners[j].Now() == done[j]
        invariant forall j :: i <= j < |listeners| ==> listeners[j].Now() == before[j]
        invariant PublishAll(before, task, probes) == After(done, PublishAll(before[i..], task, probes[i..]))
      {
        NextListener(done, before, task, probes, i);
        threw := listeners[i].Serve(task, probes[i]);
        done := done + [listeners[i].Now()];
        if threw {
          StatesAre(listeners, done, before, i + 1);
          return;
        }
        i := i + 1;
      }
      NoListener(done, task);
      assert before[i..] == [] && probes[i..] == [] && done + before[i..] == done;
      StatesAre(listeners, done, before, i);
      threw := false;
    }
  }

  // ---------- Loop steps ----------

  function Behind(front: seq<(Key, Saved)>, r: Option<(seq<(Key, Saved)>, bool)>): Option<(seq<(Key, Saved)>, bool)>
  {
    match r
    case None => None
    case Some((rest, did)) => Some((front + rest, did))
  }

  lemma BehindNothing(results: seq<(Key, Saved)>, r: Option<(seq<(Key, Saved)>, bool)>)
    ensures Behind(results[..0], r) == r && results[0..] == results
  {
    if r.Some? {
      assert results[..0] + r.value.0 == r.value.0;
    }
  }

  lemma NotNamed(results: seq<(Key, Saved)>, i: nat, id: string, revision: string, receipt: Receipt, value: bool)
    requires i < |results| && !Names(results[i].1, id, revision)
    ensures Behind(results[..i], SetReceipt(results[i..], id, revision, receipt, value))
         == Behind(results[..i + 1], SetReceipt(results[i + 1..], id, revision, receipt, value))
  {
    assert results[i..][1..] == results[i + 1..];
    var r := SetReceipt(results[i + 1..], id, revision, receipt, value);
    if r.Some? {
      assert results[..i] + ([results[i]] + r.value.0) == results[..i + 1] + r.value.0;
    }
  }

  lemma NothingNamed(results: seq<(Key, Saved)>, id: string, revision: string, receipt: Receipt, value: bool)
    ensures Behind(results, SetReceipt(results[|results|..], id, revision, receipt, value)) == None
    ensures results[..|results|] == results
  {
  }

  lemma NamedHere(results: seq<(Key, Saved)>, i: nat, id: string, revision: string, receipt: Receipt, value: bool)
    requires i < |results| && Names(results[i].1, id, revision)
    ensures Behind(results[..i], SetReceipt(results[i..], id, revision, receipt, value))
         == if Flag(results[i].1, receipt) == value then Some((results, false))
            else
              var flagged := results[i].1.(result := Flagged(results[i].1.result, receipt, value));
              Some((results[i := (results[i].0, flagged)], true))
  {
    var flagged := results[i].1.(result := Flagged(results[i].1.result, receipt, value));
    assert results[i..][1..] == results[i + 1..];
    assert results[..i] + results[i..] == results;
    assert results[..i] + ([(results[i].0, flagged)] + results[i + 1..]) == results[i := (results[i].0, flagged)];
  }

  function After(done: seq<Listener>, r: (seq<Listener>, bool)): (seq<Listener>, bool)
  {
    (done + r.0, r.1)
  }

  lemma StatesAre(listeners: seq<ExecutionListener>, done: seq<Listener>, before: seq<Listener>, i: nat)
    requires |before| == |listeners| && i == |done| <= |before|
    requires forall j :: 0 <= j < i ==> listeners[j].Now() == done[j]
    requires forall j :: i <= j < |listeners| ==> listeners[j].Now() == before[j]
    ensures States(listeners) == done + before[i..]
  {
    forall j | 0 <= j < |listeners|
      ensures States(listeners)[j] == (done + before[i..])[j]
    {
      assert States(listeners)[j] == listeners[j].Now();
    }
  }

  lemma FirstListener(before: seq<Listener>, t: Task, probes: seq<Probe>)
    requires |before| == |probes|
    ensures PublishAll(before, t, probes) == After([], PublishAll(before[0..], t, probes[0..]))
  {
    assert before[0..] == before && probes[0..] == probes;
    var all := PublishAll(before, t, probes);
    assert [] + all.0 == all.0;
  }

  lemma NextListener(done: seq<Listener>, before: seq<Listener>, t: Task, probes: seq<Probe>, i: nat)
    requires i < |before| == |probes|
    ensures var next := PublishTo(before[i], t, probes[i]);
      if next.1 then
        After(done, PublishAll(before[i..], t, probes[i..])) == (done + [next.0] + before[i + 1..], true)
      else
        After(done, PublishAll(before[i..], t, probes[i..]))
        == After(done + [next.0], PublishAll(before[i + 1..], t, probes[i + 1..]))
  {
    assert before[i..][1..] == before[i + 1..] && probes[i..][1..] == probes[i + 1..];
    var next := PublishTo(before[i], t, probes[i]);
    var rest := PublishAll(before[i + 1..], t, probes[i + 1..]);
    assert done + ([next.0] + rest.0) == done + [next.0] + rest.0;
    assert done + ([next.0] + before[i + 1..]) == done + [next.0] + before[i + 1..];
  }

  lemma NoListener(done: seq<Listener>, t: Task)
    ensures After(done, PublishAll([], t, [])) == (done, false)
  {
    assert done + [] == done;
  }
}
