// The canonical background-producer store of upstream/background-flow/store.ts: building a
// revision, committing it by replace-by-rename, and the adapter that decides when to write.
// JSON is an inverse pair on states, so a file holds an encoded state or something unreadable.
module BackgroundStore {
  import opened BackgroundRecords
  import opened JsMap

  // ---------- Records ----------

  const MAX_TASKS := 512
  const MAX_RESULTS := 512
  datatype StoreState = StoreState(
    sessionId: string, generation: nat, revision: nat, updatedAt: int, nextTaskId: nat, adoptedAt: Option<int>,
    tasks: seq<Task>, results: seq<Saved>)

  predicate IsIdentity(s: string)
  {
    0 < |s| <= 512
  }

  /** The identities a stored task carries. */
  predicate ValidTask(t: Task)
  {
    && IsIdentity(t.id)
    && (t.sessionId.Some? ==> IsIdentity(t.sessionId.value))
    && (t.flow.Some? ==>
          var flow := t.flow.value;
          && IsIdentity(flow.execution)
          && (flow.scope.Some? ==> IsIdentity(flow.scope.value.sessionId) && IsIdentity(flow.scope.value.branchId))
          && (flow.work.Some? ==>
                IsIdentity(flow.work.value.id) && 0 <= flow.work.value.revision <= MAX_SAFE_INTEGER))
  }

  predicate ValidResult(r: Saved)
  {
    && IsIdentity(r.scope.sessionId) && IsIdentity(r.scope.branchId)
    && IsIdentity(r.result.metadata.id) && IsIdentity(r.result.metadata.execution)
  }

  predicate Valid(s: StoreState)
  {
    && IsIdentity(s.sessionId)
    && s.generation <= MAX_SAFE_INTEGER && s.revision <= MAX_SAFE_INTEGER && s.nextTaskId <= MAX_SAFE_INTEGER
    && |s.tasks| <= MAX_TASKS && (forall i :: 0 <= i < |s.tasks| ==> ValidTask(s.tasks[i]))
    && |s.results| <= MAX_RESULTS && (forall i :: 0 <= i < |s.results| ==> ValidResult(s.results[i]))
  }

  // ---------- Building a revision ----------

  function DigitsValue(s: string): Option<nat>
  {
    if s == "" then Some(0)
    else
      var front := DigitsValue(s[..|s| - 1]);
      var d := s[|s| - 1];
      if front.Some? && '0' <= d <= '9' then Some(10 * front.value + (d - '0') as nat) else None
  }

  /** The number of a task id of the form `bg-<digits>`. */
  function TaskNumber(id: string): Option<nat>
  {
    if |id| > 3 && id[..3] == "bg-" then DigitsValue(id[3..]) else None
  }

  function Max(a: nat, b: nat): nat
  {
    if a < b then b else a
  }

  function HighestTaskNumber(tasks: seq<Task>): nat
  {
    if tasks == [] then 0
    else
      var highest := HighestTaskNumber(tasks[..|tasks| - 1]);
      match TaskNumber(tasks[|tasks| - 1].id)
      case Some(n) => Max(highest, n)
      case None => highest
  }

  method ComputeHighestTaskNumber(tasks: seq<Task>) returns (highest: nat)
    ensures highest == HighestTaskNumber(tasks)
  {
    highest := 0;
    for i := 0 to |tasks|
      invariant highest == HighestTaskNumber(tasks[..i])
    {
      assert tasks[..i + 1][..i] == tasks[..i];
      var n := TaskNumber(tasks[i].id);
      if n.Some? {
        highest := Max(highest, n.value);
      }
    }
    assert tasks[..|tasks|] == tasks;
  }

  function KeyTasks(tasks: seq<Task>): seq<(string, Task)>
  {
    if tasks == [] then [] else [(tasks[0].id, tasks[0])] + KeyTasks(tasks[1..])
  }

  function DedupeTasks(tasks: seq<Task>): seq<Task>
  {
    Values(PutAll([], KeyTasks(tasks)))
  }

  function DedupeResults(results: seq<Saved>): seq<Saved>
  {
    Values(PutAll([], KeyResults(results)))
  }

  method ComputeDedupeTasks(tasks: seq<Task>) returns (deduped: seq<Task>)
    ensures deduped == DedupeTasks(tasks)
  {
    var byId: seq<(string, Task)> := [];
    var i := 0;
    while i < |tasks|
      invariant 0 <= i <= |tasks|
      invariant PutAll(byId, KeyTasks(tasks[i..])) == PutAll([], KeyTasks(tasks))
    {
      var keyed := KeyTasks(tasks[i..]);
      assert tasks[i..][1..] == tasks[i + 1..];
      assert keyed[1..] == KeyTasks(tasks[i + 1..]);
      byId := Put(byId, tasks[i].id, tasks[i]);
      i := i + 1;
    }
    deduped := Values(byId);
  }

  method ComputeDedupeResults(results: seq<Saved>) returns (deduped: seq<Saved>)
    ensures deduped == DedupeResults(results)
  {
    var byKey: seq<(Key, Saved)> := [];
    var i := 0;
    while i < |results|
      invariant 0 <= i <= |results|
      invariant PutAll(byKey, KeyResults(results[i..])) == PutAll([], KeyResults(results))
    {
      var keyed := KeyResults(results[i..]);
      assert results[i..][1..] == results[i + 1..];
      assert keyed[1..] == KeyResults(results[i + 1..]);
      byKey := Put(byKey, ResultKey(results[i].scope, results[i].result.metadata.execution), results[i]);
      i := i + 1;
    }
    deduped := Values(byKey);
  }

  /** What the extension offers to be stored. */
  datatype View = View(tasks: seq<Task>, results: seq<Saved>, nextTaskId: nat)

  function Build(prior: Option<StoreState>, sessionId: string, now: int, view: View, adoptedAt: Option<int>): StoreState
  {
    StoreState(
      sessionId,
      (if prior.Some? then prior.value.generation else 0) + 1,
      (if prior.Some? then prior.value.revision else 0) + 1,
      now,
      Max(view.nextTaskId, HighestTaskNumber(view.tasks)),
      if adoptedAt.Some? then adoptedAt else if prior.Some? then prior.value.adoptedAt else None,
      DedupeTasks(view.tasks),
      DedupeResults(view.results))
  }

  // ---------- The disk ----------

  datatype Content = Encoded(state: StoreState) | Garbage

  /** A file as the system shows it; until it is synced, a power loss may leave anything in it. */
  datatype File = File(content: Content, synced: bool)

  /** The store file as seen now and as its directory entry is safe on disk, and the temporary file. */
  datatype Disk = Disk(visible: Option<File>, durable: Option<File>, temporary: Option<File>)

  datatype ReadResult = Present(state: StoreState) | Missing | Corrupt

  function ReadFile(file: Option<File>): ReadResult
  {
    match file
    case None => Missing
    case Some(f) => if f.content.Encoded? && Valid(f.content.state) then Present(f.content.state) else Corrupt
  }

  function Read(d: Disk): ReadResult
  {
    ReadFile(d.visible)
  }

  /** What befalls one I/O call: it works, throws, or the process ends there. */
  datatype Fault = NoFault | Throws(effect: bool) | Crash(effect: bool)

  datatype Plan = Plan(mkdir: Fault, write: Fault, fsync: Fault, rename: Fault, fsyncDirectory: Fault, unlink: Fault)

  datatype Outcome = Returned | Threw | Crashed

  predicate Happens(f: Fault)
  {
    f.NoFault? || f.effect
  }

  function Ends(f: Fault): Outcome
  {
    match f case NoFault => Returned case Throws(_) => Threw case Crash(_) => Crashed
  }

  predicate ReachesRename(state: StoreState, plan: Plan)
  {
    Valid(state) && plan.mkdir.NoFault? && plan.write.NoFault? && plan.fsync.NoFault?
  }

  /** The store file is replaced: the temporary file was written and synced first. */
  predicate Replaces(state: StoreState, plan: Plan)
  {
    ReachesRename(state, plan) && Happens(plan.rename)
  }

  /** How the commit ends. A throw before or at the rename also removes the temporary file. */
  function CommitEnds(state: StoreState, plan: Plan): Outcome
  {
    if !Valid(state) then Threw
    else if !plan.mkdir.NoFault? then Ends(plan.mkdir)
    else if !ReachesRename(state, plan) || !plan.rename.NoFault? then
      var fault := if !plan.write.NoFault? then plan.write else if !plan.fsync.NoFault? then plan.fsync else plan.rename;
      if fault.Crash? || plan.unlink.Crash? then Crashed else Threw
    else if plan.fsyncDirectory.Crash? then Crashed
    else Returned
  }

  predicate DirectorySynced(state: StoreState, plan: Plan)
  {
    ReachesRename(state, plan) && plan.rename.NoFault? && Happens(plan.fsyncDirectory)
  }

  method RemoveTemporary(disk0: Disk, unlink: Fault) returns (disk: Disk, outcome: Outcome)
    ensures disk.visible == disk0.visible && disk.durable == disk0.durable
    ensures outcome == if unlink.Crash? then Crashed else Threw
  {
    disk := disk0;
    if Happens(unlink) {
      disk := disk.(temporary := None);
    }
    // Whether or not that worked, the commit has failed and the old file stands.
    outcome := if unlink.Crash? then Crashed else Threw;
  }

  /** Write a temporary file, sync it, rename it over the store, and sync the directory if possible. */
  method CommitCanonicalStore(disk0: Disk, state: StoreState, plan: Plan) returns (disk: Disk, outcome: Outcome)
    ensures outcome == CommitEnds(state, plan)
    ensures disk.visible == if Replaces(state, plan) then Some(File(Encoded(state), true)) else disk0.visible
    ensures disk.durable == if DirectorySynced(state, plan) then disk.visible else disk0.durable
  {
    disk := disk0;
    if !Valid(state) {
      return disk, Threw;
    }
    if !plan.mkdir.NoFault? {
      return disk, Ends(plan.mkdir);
    }
    disk := disk.(temporary := None);
    // A write that fails half way may leave part of the payload.
    disk := disk.(temporary := if plan.write.NoFault? then Some(File(Encoded(state), false))
                               else if plan.write.effect then Some(File(Garbage, false)) else None);
    if plan.write.Crash? {
      return disk, Crashed;
    }
    if plan.write.Throws? {
      disk, outcome := RemoveTemporary(disk, plan.unlink);
      return;
    }
    if Happens(plan.fsync) {
      disk := disk.(temporary := Some(disk.temporary.value.(synced := true)));
    }
    if plan.fsync.Crash? {
      return disk, Crashed;
    }
    if plan.fsync.Throws? {
      disk, outcome := RemoveTemporary(disk, plan.unlink);
      return;
    }
    if Happens(plan.rename) {
      disk := disk.(visible := disk.temporary, temporary := None);
    }
    if plan.rename.Crash? {
      return disk, Crashed;
    }
    if plan.rename.Throws? {
      disk, outcome := RemoveTemporary(disk, plan.unlink);
      return;
    }
    if Happens(plan.fsyncDirectory) {
      disk := disk.(durable := disk.visible);
    }
    // A directory that cannot be synced does not fail the commit.
    outcome := if plan.fsyncDirectory.Crash? then Crashed else Returned;
  }

  /** The store file after the commit; the temporary file plays no further part. */
  function CommitDisk(d: Disk, state: StoreState, plan: Plan): Disk
  {
    var visible := if Replaces(state, plan) then Some(File(Encoded(state), true)) else d.visible;
    Disk(visible, if DirectorySynced(state, plan) then visible else d.durable, None)
  }

  // ---------- Crash safety of one commit ----------

  /** Everything named in the directory was synced. */
  predicate AllSynced(d: Disk)
  {
    (d.visible.Some? ==> d.visible.value.synced) && (d.durable.Some? ==> d.durable.value.synced)
  }

  /**
   * The store file after a power loss: the old or the new directory entry, and unsynced content
   * replaced by `junk`.
   */
  function AfterPowerLoss(d: Disk, keepsRename: bool, junk: Content): Option<File>
  {
    match (if keepsRename then d.visible else d.durable)
    case None => None
    case Some(f) => Some(File(if f.synced then f.content else junk, true))
  }

  /**
   * With a fault or the end of the process at any I/O call, the store afterwards reads as before or
   * as the new revision; it is the new one whenever the commit returned. A power loss at that point
   * leaves the store as the directory had it safe before, as it was visible, or as the new revision;
   * never a mixture. Every file that can be found stays synced.
   */
  lemma CommitIsAtomic(d: Disk, state: StoreState, plan: Plan, keepsRename: bool, junk: Content)
    requires AllSynced(d)
    ensures var after := CommitDisk(d, state, plan);
      && AllSynced(after)
      && (Read(after) == Read(d) || Read(after) == Present(state))
      && (CommitEnds(state, plan) == Returned ==> Read(after) == Present(state))
      && ReadFile(AfterPowerLoss(after, keepsRename, junk)) in {ReadFile(d.durable), Read(d), Present(state)}
  {
    hide Valid;
  }

  /** After a commit that returned and synced the directory, even a power loss keeps the new revision. */
  lemma CommitIsDurable(d: Disk, state: StoreState, plan: Plan, keepsRename: bool, junk: Content)
    requires AllSynced(d) && CommitEnds(state, plan) == Returned && plan.fsyncDirectory.NoFault?
    ensures ReadFile(AfterPowerLoss(CommitDisk(d, state, plan), keepsRename, junk)) == Present(state)
  {
    hide Valid;
  }
}
