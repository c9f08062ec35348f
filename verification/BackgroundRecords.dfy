// The records that upstream/background-flow/runtime.ts keeps and upstream/background-flow/store.ts
// stores: task snapshots and the terminal results that outlive them.
module BackgroundRecords {
  import opened JsMap

  const MAX_SAFE_INTEGER := 0x1F_FFFF_FFFF_FFFF

  datatype Scope = Scope(sessionId: string, branchId: string)

  datatype Work = Work(id: string, revision: int)

  datatype ResultStatus = Success | Failure | Cancelled

  datatype Metadata =
    Metadata(id: string, execution: string, revision: string, status: ResultStatus, reference: string)

  datatype Terminal = Terminal(metadata: Metadata, delivered: bool, observed: bool, notify: bool)

  datatype Flow = Flow(execution: string, scope: Option<Scope>, work: Option<Work>, result: Option<Terminal>)

  datatype Status = Running | Completed | Failed | TimedOut | Stopped | Unsupported

  /** `byShutdown` says that an extension stop or the end of the session ended the task. */
  datatype Task = Task(
    id: string, sessionId: Option<string>, status: Status, byShutdown: bool, pid: Option<int>, logFile: Option<string>,
    notifyOnExit: bool, exitNotified: bool, flow: Option<Flow>)

  /** What is kept of one execution once its task is gone. */
  datatype Saved = Saved(scope: Scope, work: Option<Work>, result: Terminal)

  type Key = (string, string, string)

  function ResultKey(scope: Scope, execution: string): Key
  {
    (scope.sessionId, scope.branchId, execution)
  }

  /** Records keyed by scope and by the execution their metadata names. */
  function KeyResults(records: seq<Saved>): seq<(Key, Saved)>
  {
    if records == [] then []
    else [(ResultKey(records[0].scope, records[0].result.metadata.execution), records[0])] + KeyResults(records[1..])
  }

  /** Every entry is keyed by its own scope and execution. */
  predicate Keyed(entries: seq<(Key, Saved)>)
  {
    forall i :: 0 <= i < |entries| ==>
      entries[i].0 == ResultKey(entries[i].1.scope, entries[i].1.result.metadata.execution)
  }

  lemma {:induction false} KeyResultsOfValues(entries: seq<(Key, Saved)>)
    requires Keyed(entries)
    ensures KeyResults(Values(entries)) == entries
  {
    if entries != [] {
      assert entries[0] == (ResultKey(entries[0].1.scope, entries[0].1.result.metadata.execution), entries[0].1);
      KeyResultsOfValues(entries[1..]);
      assert Values(entries)[1..] == Values(entries[1..]);
    }
  }

  lemma {:induction false} ValuesOfKeyResults(results: seq<Saved>)
    ensures Values(KeyResults(results)) == results
  {
    if results != [] {
      ValuesOfKeyResults(results[1..]);
      assert KeyResults(results)[1..] == KeyResults(results[1..]);
    }
  }

  predicate SafeWork(w: Work)
  {
    -MAX_SAFE_INTEGER <= w.revision <= MAX_SAFE_INTEGER
  }

  predicate Scoped(t: Task)
  {
    t.flow.Some? && t.flow.value.scope.Some?
  }

  predicate HasResult(t: Task)
  {
    Scoped(t) && t.flow.value.result.Some?
  }

  function TaskKey(t: Task): Key
    requires Scoped(t)
  {
    ResultKey(t.flow.value.scope.value, t.flow.value.execution)
  }

  function SavedOf(t: Task): Saved
    requires HasResult(t)
  {
    Saved(t.flow.value.scope.value, t.flow.value.work, t.flow.value.result.value)
  }

  /** A scope and a running task in it, of which the concrete runs are made. */
  const HOME := Scope("session", "branch")
  const JOB := Task("bg-1", Some("session"), Running, false, None, Some("log"), true, false,
                    Some(Flow("execution", Some(HOME), Some(Work("work", 1)), None)))
}
