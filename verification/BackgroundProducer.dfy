// Whole runs of the background producer: tasks start, end and are cleared, results are prepared,
// written, committed and acknowledged, writes fail in every way, and the process ends, in any order.
// The store file is the only thing a new process has.
module BackgroundProducer {
  import Strings
  import opened BackgroundRecords
  import opened JsMap
  import opened BackgroundResults

  /** What the store file holds: the last revision that replaced it. */
  datatype Stored = Stored(tasks: seq<Task>, records: seq<Saved>)

  /**
   * `issued` remembers every execution ever handed out with a scope; execution names are fresh. The
   * process is `blocked` when it could not read the store file.
   */
  datatype Producer = Producer(
    tasks: seq<Task>, results: seq<(Key, Saved)>, deliveries: map<string, Scope>, issued: map<Key, Work>,
    stored: Stored, blocked: bool)

  const EMPTY := Producer([], [], map[], map[], Stored([], []), false)

  /**
   * How a write of the store ends. It may throw, or the process may die in it, before or after the
   * file was replaced. It is interrupted when a delivery that is told of the committed results throws:
   * the write then fails after everything was committed. It is refused while the store is blocked or no
   * session is active.
   */
  datatype Write = Wrote | Interrupted | Threw(replaced: bool) | Died(replaced: bool) | Refused

  predicate Replaces(w: Write)
  {
    w.Wrote? || w.Interrupted? || ((w.Threw? || w.Died?) && w.replaced)
  }

  /**
   * `EPrepare` is a progress update, which only prepares results; `EWrite` is the delayed write it asks
   * for. `EPersist` prepares and writes at once. `EAcknowledge` records a receipt, does the same, and
   * takes the receipt back when that fails. `ERestart` ends the process between two steps; the next one
   * may find the file unreadable, which blocks it.
   */
  datatype Event =
    | EStart(task: Task)
    | EEnd(index: nat, status: Status, byShutdown: bool)
    | EDeliver(deliveries: map<string, Scope>)
    | EClear(index: nat)
    | EPrepare
    | EWrite(w: Write)
    | EPersist(w: Write)
    | EAcknowledge(id: string, revision: string, receipt: Receipt, w: Write)
    | ERestart(readable: bool)

  predicate FreshExecution(execution: string, issued: map<Key, Work>)
  {
    forall k :: k in issued ==> k.2 != execution
  }

  /** A new execution: running, without a result, and under a fresh name when it is scoped. */
  predicate Issuable(issued: map<Key, Work>, t: Task)
  {
    && t.status.Running?
    && (t.flow.Some? ==> t.flow.value.result.None?)
    && (Scoped(t) ==> t.flow.value.work.Some? && SafeWork(t.flow.value.work.value)
                      && FreshExecution(t.flow.value.execution, issued))
  }

  /** Task ids are counted upwards, so a task starts under an id that no live task has. */
  predicate Startable(s: Producer, t: Task)
  {
    Issuable(s.issued, t) && forall i :: 0 <= i < |s.tasks| ==> s.tasks[i].id != t.id
  }

  function Issue(s: Producer, t: Task): Producer
    requires Issuable(s.issued, t)
  {
    if Scoped(t) then s.(issued := s.issued[TaskKey(t) := t.flow.value.work.value]) else s
  }

  function Start(s: Producer, t: Task): Producer
    requires Issuable(s.issued, t)
  {
    Issue(s, t).(tasks := s.tasks + [t])
  }

  /** A new process: the tasks and results of the store file, and nothing else. */
  function Reopened(s: Producer): Producer
  {
    s.(tasks := s.stored.tasks, results := Restore([], s.stored.records), deliveries := map[], blocked := false)
  }

  /** A new process that cannot read the store file: it has nothing, and writes nothing. */
  function Blinded(s: Producer): Producer
  {
    s.(tasks := [], results := [], deliveries := map[], blocked := true)
  }

  /** Write the tasks with the retained results, and commit these once the file was written without a fault. */
  function WriteNow(s: Producer, w: Write): Producer
  {
    var b := if Replaces(w) then s.(stored := Stored(s.tasks, Snapshot(s.results, s.tasks))) else s;
    match w
    case Wrote => b.(results := Commit(s.results, s.tasks))
    case Interrupted => b.(results := Commit(s.results, s.tasks))
    case Died(_) => Reopened(b)
    case _ => b
  }

  function Prepared(s: Producer): Producer
  {
    s.(tasks := PrepareAll(s.tasks, s.deliveries).0)
  }

  /** The write is reached: it is not refused, and no result was found incomplete while preparing. */
  predicate Reaches(s: Producer, w: Write)
  {
    !w.Refused? && PrepareAll(s.tasks, s.deliveries).1
  }

  function Persist(s: Producer, w: Write): Producer
  {
    if w.Refused? then s else if Reaches(s, w) then WriteNow(Prepared(s), w) else Prepared(s)
  }

  predicate TaskNames(t: Task, id: string, revision: string)
  {
    && t.flow.Some? && t.flow.value.result.Some?
    && t.flow.value.result.value.metadata.id == id && t.flow.value.result.value.metadata.revision == revision
  }

  /** The first live task that carries the result so named. */
  function FindTask(tasks: seq<Task>, id: string, revision: string): (at: Option<nat>)
    ensures at.Some? ==> at.value < |tasks| && TaskNames(tasks[at.value], id, revision)
    ensures at.None? ==> forall i :: 0 <= i < |tasks| ==> !TaskNames(tasks[i], id, revision)
  {
    if tasks == [] then None
    else if TaskNames(tasks[0], id, revision) then Some(0)
    else
      match FindTask(tasks[1..], id, revision)
      case None =>
        assert forall i :: 1 <= i < |tasks| ==> tasks[i] == tasks[1..][i - 1];
        None
      case Some(i) => Some(i + 1)
  }

  function WithReceipt(t: Task, receipt: Receipt, value: bool, exitNotified: bool): Task
    requires t.flow.Some? && t.flow.value.result.Some?
  {
    t.(flow := Some(t.flow.value.(result := Some(Flagged(t.flow.value.result.value, receipt, value)))),
       exitNotified := exitNotified)
  }

  /** The receipt mirrored onto the live task, if one remains. */
  function Mirrored(tasks: seq<Task>, id: string, revision: string, receipt: Receipt): seq<Task>
  {
    match FindTask(tasks, id, revision)
    case None => tasks
    case Some(at) => tasks[at := WithReceipt(tasks[at], receipt, true, true)]
  }

  function Unmirrored(after: seq<Task>, tasks: seq<Task>, id: string, revision: string, receipt: Receipt): seq<Task>
  {
    match FindTask(tasks, id, revision)
    case None => after
    case Some(at) =>
      if at < |after| && after[at].flow.Some? && after[at].flow.value.result.Some?
      then after[at := WithReceipt(after[at], receipt, false, tasks[at].exitNotified)]
      else after
  }

  function Marked(s: Producer, id: string, revision: string, receipt: Receipt): Producer
    requires SetReceipt(s.results, id, revision, receipt, true).Some?
  {
    s.(tasks := Mirrored(s.tasks, id, revision, receipt),
       results := SetReceipt(s.results, id, revision, receipt, true).value.0)
  }

  /** Take the receipt back from `after`, the state in which a persist of the marked state failed. */
  function Undone(after: Producer, s: Producer, id: string, revision: string, receipt: Receipt): Producer
  {
    var undone := SetReceipt(after.results, id, revision, receipt, false);
    after.(tasks := Unmirrored(after.tasks, s.tasks, id, revision, receipt),
           results := if undone.Some? then undone.value.0 else after.results)
  }

  /** The receipt is new: an acknowledgement of it changes the result so named. */
  predicate IsNew(s: Producer, id: string, revision: string, receipt: Receipt)
  {
    var marked := SetReceipt(s.results, id, revision, receipt, true);
    marked.Some? && marked.value.1
  }

  function Acknowledge(s: Producer, id: string, revision: string, receipt: Receipt, w: Write): Producer
  {
    if !IsNew(s, id, revision, receipt) then s
    else
      var after := Persist(Marked(s, id, revision, receipt), w);
      if Reaches(s, w) && (w.Wrote? || w.Died?) then after else Undone(after, s, id, revision, receipt)
  }

  /** While the process is blocked every write is refused, and nothing is prepared for one. */
  function Allowed(s: Producer, e: Event): Event
  {
    if !s.blocked then e
    else
      match e
      case EPrepare => EPersist(Refused)
      case EWrite(_) => EWrite(Refused)
      case EPersist(_) => EPersist(Refused)
      case EAcknowledge(id, revision, receipt, _) => EAcknowledge(id, revision, receipt, Refused)
      case _ => e
  }

  function Apply(s: Producer, e: Event): Producer
  {
    match e
    case EStart(t) => if Startable(s, t) then Start(s, t) else s
    case EEnd(i, status, byShutdown) =>
      if i < |s.tasks| && s.tasks[i].status.Running? && !status.Running?
      then s.(tasks := s.tasks[i := s.tasks[i].(status := status, byShutdown := byShutdown)])
      else s
    case EDeliver(deliveries) => s.(deliveries := deliveries)
    case EClear(i) => if Clearable(s, i) then s.(tasks := s.tasks[..i] + s.tasks[i + 1..]) else s
    case EPrepare => Prepared(s)
    case EWrite(w) => if w.Refused? then s else WriteNow(s, w)
    case EPersist(w) => Persist(s, w)
    case EAcknowledge(id, revision, receipt, w) => Acknowledge(s, id, revision, receipt, w)
    case ERestart(readable) => if readable then Reopened(s) else Blinded(s)
  }

  function Step(s: Producer, e: Event): Producer
  {
    Apply(s, Allowed(s, e))
  }

  /** Only a finished task is cleared. */
  predicate Clearable(s: Producer, i: nat)
  {
    i < |s.tasks| && !s.tasks[i].status.Running?
  }

  function Run(s: Producer, events: seq<Event>): Producer
  {
    if events == [] then s else Step(Run(s, events[..|events| - 1]), events[|events| - 1])
  }

  // ---------- The invariant ----------

  predicate SoundSaved(k: Key, v: Saved, issued: map<Key, Work>)
  {
    && k in issued
    && v.scope == Scope(k.0, k.1) && v.work == Some(issued[k])
    && v.result.metadata.id == ResultId(k.2) && v.result.metadata.execution == k.2 && v.result.metadata.revision == "1"
  }

  /** A live task agrees with the map: once its result is there, both say the same. */
  predicate SoundTask(t: Task, results: seq<(Key, Saved)>, issued: map<Key, Work>)
  {
    if !Scoped(t) then t.flow.Some? ==> t.flow.value.result.None?
    else
      && TaskKey(t) in issued && t.flow.value.work == Some(issued[TaskKey(t)])
      && (t.status.Running? ==> t.flow.value.result.None?)
      && (HasResult(t) ==> SoundSaved(TaskKey(t), SavedOf(t), issued))
      && match Lookup(results, TaskKey(t))
         case Some(v) => HasResult(t) && v == SavedOf(t)
         case None => HasResult(t) ==> !SavedOf(t).result.observed && !SavedOf(t).result.delivered
  }

  predicate LiveAt(t: Task, k: Key)
  {
    Scoped(t) && TaskKey(t) == k
  }

  ghost predicate DistinctTasks(tasks: seq<Task>)
  {
    forall i, j, k | 0 <= i < j < |tasks| && LiveAt(tasks[i], k) :: !LiveAt(tasks[j], k)
  }

  predicate SoundIssued(issued: map<Key, Work>)
  {
    && (forall k :: k in issued ==> SafeWork(issued[k]))
    && (forall j, k :: j in issued && k in issued && j.2 == k.2 ==> j == k)
  }

  ghost predicate SoundResults(results: seq<(Key, Saved)>, issued: map<Key, Work>)
  {
    Unique(results) && forall k :: Lookup(results, k).Some? ==> SoundSaved(k, Lookup(results, k).value, issued)
  }

  ghost predicate SoundTasks(tasks: seq<Task>, results: seq<(Key, Saved)>, issued: map<Key, Work>)
  {
    DistinctTasks(tasks) && forall i :: 0 <= i < |tasks| ==> SoundTask(tasks[i], results, issued)
  }

  /** The tasks in memory and the result map agree with each other and with what was issued. */
  ghost predicate Consistent(s: Producer)
  {
    SoundIssued(s.issued) && SoundResults(s.results, s.issued) && SoundTasks(s.tasks, s.results, s.issued)
  }

  /** Both copies are consistent: the one in memory, and the one a new process would find. */
  ghost predicate Kept(s: Producer)
  {
    Consistent(s) && Consistent(Reopened(s))
  }

  // ---------- What a copy knows of one execution ----------

  /** Nothing; that its work is still owed something; or that its result was observed. */
  datatype Entry = Unknown | Owed | Seen

  ghost predicate IsLive(tasks: seq<Task>, k: Key)
  {
    exists i :: 0 <= i < |tasks| && LiveAt(tasks[i], k)
  }

  ghost function EntryOf(s: Producer, k: Key): Entry
  {
    if ObservedAt(s.results, k) then Seen
    else if Lookup(s.results, k).Some? || IsLive(s.tasks, k) then Owed
    else Unknown
  }

  datatype Card = Card(memory: Entry, disk: Entry)

  ghost function CardOf(s: Producer, k: Key): Card
  {
    Card(EntryOf(s, k), EntryOf(Reopened(s), k))
  }

  /** What one event means for one execution. */
  datatype Mark = Issued | Dropped | Written(seen: bool, w: Write) | Ended(readable: bool) | Nothing

  /** Two copies and no more: this is all that the producer, its map and its file amount to. */
  function Turn(c: Card, m: Mark): Card
  {
    match m
    case Issued => if c.memory.Unknown? then c.(memory := Owed) else c
    case Dropped => if c.memory.Owed? then c.(memory := Unknown) else c
    case Written(seen, w) =>
      var written := if seen then Seen else c.memory;
      var disk := if Replaces(w) then written else c.disk;
      Card(if w.Wrote? then written else if w.Died? then disk else c.memory, disk)
    case Ended(readable) => Card(if readable then c.disk else Unknown, c.disk)
    case Nothing => c
  }

  /** The acknowledgement names the result of `k`, whose observation it records. */
  predicate Acknowledges(s: Producer, e: Event, k: Key)
    requires e.EAcknowledge?
  {
    e.receipt.Observed? && Lookup(s.results, k).Some? && Names(Lookup(s.results, k).value, e.id, e.revision)
  }

  function MarkAs(s: Producer, e: Event, k: Key): Mark
  {
    match e
    case EStart(t) => if Startable(s, t) && LiveAt(t, k) then Issued else Nothing
    case EClear(i) =>
      if Clearable(s, i) && LiveAt(s.tasks[i], k) && Lookup(s.results, k).None? then Dropped else Nothing
    case EWrite(w) => if w.Refused? then Nothing else Written(false, w)
    case EPersist(w) => if Reaches(s, w) then Written(false, w) else Nothing
    case EAcknowledge(id, revision, receipt, w) =>
      if IsNew(s, id, revision, receipt) && Reaches(s, w) then Written(Acknowledges(s, e, k), w) else Nothing
    case ERestart(readable) => Ended(readable)
    case _ => Nothing
  }

  function MarkOf(s: Producer, e: Event, k: Key): Mark
  {
    MarkAs(s, Allowed(s, e), k)
  }

  // ---------- Preparing ----------

  /** The tasks stay, each as it was or with its result prepared. */
  predicate Advanced(before: seq<Task>, after: seq<Task>, deliveries: map<string, Scope>)
  {
    |after| == |before| && forall i :: 0 <= i < |before| ==>
      after[i] == before[i] || (ToPrepare(before[i], deliveries) && Prepare(before[i], deliveries) == Some(after[i]))
  }

  lemma {:induction false} PrepareAdvances(tasks: seq<Task>, deliveries: map<string, Scope>)
    ensures Advanced(tasks, PrepareAll(tasks, deliveries).0, deliveries)
  {
    if tasks != [] && Prepare(tasks[0], deliveries).Some? {
      PrepareAdvances(tasks[1..], deliveries);
      var rest := PrepareAll(tasks[1..], deliveries).0;
      forall i | 0 <= i < |tasks|
        ensures var after := PrepareAll(tasks, deliveries).0[i];
          after == tasks[i] || (ToPrepare(tasks[i], deliveries) && Prepare(tasks[i], deliveries) == Some(after))
      {
        if i > 0 {
          assert tasks[1..][i - 1] == tasks[i] && PrepareAll(tasks, deliveries).0[i] == rest[i - 1];
        }
      }
    }
  }

  lemma AdvancedTaskKeeps(t: Task, after: Task, deliveries: map<string, Scope>, results: seq<(Key, Saved)>,
                          issued: map<Key, Work>)
    requires SoundTask(t, results, issued) && ToPrepare(t, deliveries) && Prepare(t, deliveries) == Some(after)
    ensures SoundTask(after, results, issued)
    ensures forall k :: LiveAt(after, k) <==> LiveAt(t, k)
  {
  }

  lemma AdvancedKeeps(s: Producer, tasks: seq<Task>)
    requires Consistent(s) && Advanced(s.tasks, tasks, s.deliveries)
    ensures Consistent(s.(tasks := tasks)) && SameEntries(s, s.(tasks := tasks))
  {
    hide SoundTask, SoundIssued, SoundResults, Prepare, LiveAt;
    forall i | 0 <= i < |tasks|
      ensures SoundTask(tasks[i], s.results, s.issued)
      ensures forall k :: LiveAt(tasks[i], k) <==> LiveAt(s.tasks[i], k)
    {
      if tasks[i] != s.tasks[i] {
        AdvancedTaskKeeps(s.tasks[i], tasks[i], s.deliveries, s.results, s.issued);
      }
    }
    SameLiveEntries(s, s.(tasks := tasks));
  }

  /** Two states know the same of every execution. */
  ghost predicate SameEntries(s: Producer, t: Producer)
  {
    forall k :: EntryOf(s, k) == EntryOf(t, k)
  }

  lemma SameLiveEntries(s: Producer, t: Producer)
    requires s.results == t.results && |s.tasks| == |t.tasks|
    requires forall i, k :: 0 <= i < |s.tasks| ==> (LiveAt(s.tasks[i], k) <==> LiveAt(t.tasks[i], k))
    ensures SameEntries(s, t)
  {
    SameLive(s.tasks, t.tasks);
  }

  lemma SameLive(a: seq<Task>, b: seq<Task>)
    requires |a| == |b| && forall i, k :: 0 <= i < |a| ==> (LiveAt(a[i], k) <==> LiveAt(b[i], k))
    ensures forall k :: IsLive(a, k) == IsLive(b, k)
  {
    hide LiveAt;
    forall k
      ensures IsLive(a, k) == IsLive(b, k)
    {
      if IsLive(a, k) {
        var i :| 0 <= i < |a| && LiveAt(a[i], k);
        assert LiveAt(b[i], k);
      }
      if IsLive(b, k) {
        var i :| 0 <= i < |b| && LiveAt(b[i], k);
        assert LiveAt(a[i], k);
      }
    }
  }

  lemma PreparedKeeps(s: Producer)
    requires Consistent(s)
    ensures Consistent(Prepared(s)) && SameEntries(s, Prepared(s))
  {
    PrepareAdvances(s.tasks, s.deliveries);
    AdvancedKeeps(s, PrepareAll(s.tasks, s.deliveries).0);
  }

  // ---------- Committing ----------

  lemma {:induction false} LastEntry(tasks: seq<Task>, k: Key) returns (at: nat)
    ensures var last := LastValue(ResultEntries(tasks), k);
      if last.Some? then at < |tasks| && HasResult(tasks[at]) && LiveAt(tasks[at], k) && last.value == SavedOf(tasks[at])
      else forall i :: 0 <= i < |tasks| ==> !(HasResult(tasks[i]) && LiveAt(tasks[i], k))
  {
    at := 0;
    if tasks != [] {
      var later := LastEntry(tasks[1..], k);
      var entries := ResultEntries(tasks);
      assert forall i :: 1 <= i < |tasks| ==> tasks[i] == tasks[1..][i - 1];
      if HasResult(tasks[0]) {
        assert entries[1..] == ResultEntries(tasks[1..]);
      } else {
        assert entries == ResultEntries(tasks[1..]);
      }
      at := if LastValue(ResultEntries(tasks[1..]), k).Some? then later + 1 else 0;
    }
  }

  /** A commit adds the prepared results and changes none that is already there. */
  lemma CommitLookup(s: Producer, k: Key)
    requires Consistent(s)
    ensures var after := Lookup(Commit(s.results, s.tasks), k);
      && (Lookup(s.results, k).Some? ==> after == Lookup(s.results, k))
      && (after.Some? && Lookup(s.results, k).None? ==>
            exists i :: 0 <= i < |s.tasks| && HasResult(s.tasks[i]) && LiveAt(s.tasks[i], k)
                        && after.value == SavedOf(s.tasks[i]))
      && (forall i :: 0 <= i < |s.tasks| && HasResult(s.tasks[i]) && LiveAt(s.tasks[i], k) ==>
            after == Some(SavedOf(s.tasks[i])))
  {
    hide SoundIssued, SoundSaved;
    var at := LastEntry(s.tasks, k);
    PutAllLookup(s.results, ResultEntries(s.tasks), k);
    if LastValue(ResultEntries(s.tasks), k).Some? {
      assert SoundTask(s.tasks[at], s.results, s.issued);
      forall i | 0 <= i < |s.tasks| && HasResult(s.tasks[i]) && LiveAt(s.tasks[i], k)
        ensures i == at
      {
        assert LiveAt(s.tasks[at], k);
      }
    }
  }

  lemma CommitKeeps(s: Producer)
    requires Consistent(s)
    ensures Consistent(s.(results := Commit(s.results, s.tasks)))
    ensures SameEntries(s, s.(results := Commit(s.results, s.tasks)))
  {
    hide Commit, SoundIssued, SoundSaved;
    var after := Commit(s.results, s.tasks);
    assert Unique(after) by { CommitUnique(s.results, s.tasks); }
    forall k
      ensures Lookup(after, k).Some? ==> SoundSaved(k, Lookup(after, k).value, s.issued)
      ensures ObservedAt(after, k) <==> ObservedAt(s.results, k)
      ensures Lookup(after, k).None? ==> Lookup(s.results, k).None?
      ensures Lookup(after, k).Some? ==> Lookup(s.results, k).Some? || IsLive(s.tasks, k)
    {
      CommitLookup(s, k);
      if Lookup(after, k).Some? && Lookup(s.results, k).None? {
        var i :| 0 <= i < |s.tasks| && HasResult(s.tasks[i]) && LiveAt(s.tasks[i], k)
                 && Lookup(after, k).value == SavedOf(s.tasks[i]);
        assert SoundTask(s.tasks[i], s.results, s.issued);
      }
    }
    forall i | 0 <= i < |s.tasks|
      ensures SoundTask(s.tasks[i], after, s.issued)
    {
      assert SoundTask(s.tasks[i], s.results, s.issued);
      if Scoped(s.tasks[i]) {
        CommitLookup(s, TaskKey(s.tasks[i]));
        assert LiveAt(s.tasks[i], TaskKey(s.tasks[i]));
      }
    }
  }

  lemma CommitUnique(results: seq<(Key, Saved)>, tasks: seq<Task>)
    requires Unique(results)
    ensures Unique(Commit(results, tasks))
  {
    PutAllUnique(results, ResultEntries(tasks));
  }

  // ---------- Acknowledging ----------

  /** A receipt changes the flag of one entry, the one so named, and says whether it did. */
  lemma {:induction false} SetReceiptChanges(results: seq<(Key, Saved)>, id: string, revision: string, receipt: Receipt,
                                             value: bool) returns (k: Key)
    requires Unique(results)
    ensures var r := SetReceipt(results, id, revision, receipt, value);
      if r.None? then forall j :: Lookup(results, j).Some? ==> !Names(Lookup(results, j).value, id, revision)
      else
        && Lookup(results, k).Some? && Names(Lookup(results, k).value, id, revision) && Unique(r.value.0)
        && r.value.1 == (Flag(Lookup(results, k).value, receipt) != value)
        && forall j :: Lookup(r.value.0, j) ==
             if j == k then Some(Lookup(results, k).value.(result := Flagged(Lookup(results, k).value.result, receipt, value)))
             else Lookup(results, j)
  {
    k := ("", "", "");
    if results != [] {
      var e := results[0];
      if Names(e.1, id, revision) {
        k := e.0;
      } else {
        k := SetReceiptChanges(results[1..], id, revision, receipt, value);
      }
    }
  }

  lemma {:induction false} ReceiptUndone(results: seq<(Key, Saved)>, id: string, revision: string, receipt: Receipt)
    requires SetReceipt(results, id, revision, receipt, true).Some?
    requires SetReceipt(results, id, revision, receipt, true).value.1
    ensures SetReceipt(SetReceipt(results, id, revision, receipt, true).value.0, id, revision, receipt, false)
         == Some((results, true))
  {
    var after := SetReceipt(results, id, revision, receipt, true).value.0;
    assert results == [results[0]] + results[1..];
    if Names(results[0].1, id, revision) {
      assert after[1..] == results[1..];
    } else {
      ReceiptUndone(results[1..], id, revision, receipt);
      assert after[1..] == SetReceipt(results[1..], id, revision, receipt, true).value.0;
    }
  }

  lemma ResultIdNames(a: string, b: string)
    requires ResultId(a) == ResultId(b)
    ensures a == b
  {
    assert ResultId(a)[10..] == a && ResultId(b)[10..] == b;
  }

  /** The task that mirrors a result is the live task of that very execution. */
  lemma FindsTheTask(s: Producer, id: string, revision: string, k: Key)
    requires Consistent(s) && Lookup(s.results, k).Some? && Names(Lookup(s.results, k).value, id, revision)
    ensures var at := FindTask(s.tasks, id, revision);
      && (at.Some? ==> LiveAt(s.tasks[at.value], k) && Lookup(s.results, k) == Some(SavedOf(s.tasks[at.value])))
      && (forall i :: 0 <= i < |s.tasks| && LiveAt(s.tasks[i], k) ==> at == Some(i))
  {
    var at := FindTask(s.tasks, id, revision);
    if at.Some? {
      var t := s.tasks[at.value];
      assert SoundTask(t, s.results, s.issued);
      ResultIdNames(TaskKey(t).2, k.2);
      assert LiveAt(t, k);
    }
    forall i | 0 <= i < |s.tasks| && LiveAt(s.tasks[i], k)
      ensures at == Some(i)
    {
      assert SoundTask(s.tasks[i], s.results, s.issued);
      assert TaskNames(s.tasks[i], id, revision);
    }
  }

  lemma MarkedTask(s: Producer, id: string, revision: string, receipt: Receipt, i: nat)
    requires Consistent(s) && IsNew(s, id, revision, receipt) && i < |s.tasks|
    ensures var m := Marked(s, id, revision, receipt);
      && |m.tasks| == |s.tasks| && SoundTask(m.tasks[i], m.results, m.issued)
      && forall j :: LiveAt(m.tasks[i], j) <==> LiveAt(s.tasks[i], j)
  {
    hide SetReceipt, SoundIssued, FindTask;
    var k := SetReceiptChanges(s.results, id, revision, receipt, true);
    FindsTheTask(s, id, revision, k);
    assert SoundTask(s.tasks[i], s.results, s.issued);
  }

  lemma MarkedKeeps(s: Producer, id: string, revision: string, receipt: Receipt) returns (k: Key)
    requires Consistent(s) && IsNew(s, id, revision, receipt)
    ensures Consistent(Marked(s, id, revision, receipt))
    ensures Lookup(s.results, k).Some? && Names(Lookup(s.results, k).value, id, revision)
    ensures var m := Marked(s, id, revision, receipt);
      forall j :: EntryOf(m, j) == (if receipt.Observed? && j == k then Seen else EntryOf(s, j))
  {
    hide SetReceipt, SoundIssued, Mirrored, SoundTask, LiveAt;
    k := SetReceiptChanges(s.results, id, revision, receipt, true);
    var m := Marked(s, id, revision, receipt);
    assert |m.tasks| == |s.tasks| by { MirroredLength(s.tasks, id, revision, receipt); }
    forall i | 0 <= i < |s.tasks|
      ensures SoundTask(m.tasks[i], m.results, m.issued)
      ensures forall j :: LiveAt(m.tasks[i], j) <==> LiveAt(s.tasks[i], j)
    {
      MarkedTask(s, id, revision, receipt, i);
    }
    SameLive(s.tasks, m.tasks);
  }

  lemma MirroredLength(tasks: seq<Task>, id: string, revision: string, receipt: Receipt)
    ensures |Mirrored(tasks, id, revision, receipt)| == |tasks|
  {
  }

  lemma {:induction false} PrepareAllUpdate(tasks: seq<Task>, at: nat, t: Task, deliveries: map<string, Scope>)
    requires at < |tasks| && !ToPrepare(tasks[at], deliveries) && !ToPrepare(t, deliveries)
    ensures |PrepareAll(tasks, deliveries).0| == |tasks|
    ensures PrepareAll(tasks[at := t], deliveries)
         == (PrepareAll(tasks, deliveries).0[at := t], PrepareAll(tasks, deliveries).1)
  {
    PrepareAdvances(tasks, deliveries);
    assert Prepare(tasks[at], deliveries) == Some(tasks[at]) && Prepare(t, deliveries) == Some(t);
    hide Prepare, ToPrepare, Advanced, PrepareAll;
    PrepareFirst(tasks, deliveries);
    PrepareFirst(tasks[at := t], deliveries);
    var after, rest := PrepareAll(tasks, deliveries).0, PrepareAll(tasks[1..], deliveries).0;
    if at == 0 {
      assert tasks[at := t][1..] == tasks[1..];
      assert after[0 := t] == [t] + rest;
    } else {
      PrepareAllUpdate(tasks[1..], at - 1, t, deliveries);
      assert tasks[at := t][1..] == tasks[1..][at - 1 := t];
      assert Prepare(tasks[0], deliveries).Some? ==>
        after[at := t] == [Prepare(tasks[0], deliveries).value] + rest[at - 1 := t];
    }
  }

  lemma PrepareFirst(tasks: seq<Task>, deliveries: map<string, Scope>)
    requires tasks != []
    ensures PrepareAll(tasks, deliveries) ==
      match Prepare(tasks[0], deliveries)
      case None => (tasks, false)
      case Some(t) => ([t] + PrepareAll(tasks[1..], deliveries).0, PrepareAll(tasks[1..], deliveries).1)
  {
  }

  lemma MirroredPrepares(s: Producer, id: string, revision: string, receipt: Receipt)
    ensures var (mirrored, done) := PrepareAll(Mirrored(s.tasks, id, revision, receipt), s.deliveries);
            var (plain, complete) := PrepareAll(s.tasks, s.deliveries);
      && done == complete
      && |plain| == |s.tasks|
      && match FindTask(s.tasks, id, revision)
         case None => mirrored == plain
         case Some(at) =>
           plain[at] == s.tasks[at] && mirrored == plain[at := WithReceipt(s.tasks[at], receipt, true, true)]
  {
    PrepareAdvances(s.tasks, s.deliveries);
    match FindTask(s.tasks, id, revision)
    case None =>
    case Some(at) =>
      PrepareAllUpdate(s.tasks, at, WithReceipt(s.tasks[at], receipt, true, true), s.deliveries);
  }

  lemma MarkedReaches(s: Producer, id: string, revision: string, receipt: Receipt, w: Write)
    requires IsNew(s, id, revision, receipt)
    ensures Reaches(Marked(s, id, revision, receipt), w) == Reaches(s, w)
  {
    MirroredPrepares(s, id, revision, receipt);
  }

  /**
   * An acknowledgement that fails leaves the memory as the same write would have left it with nothing
   * acknowledged; only the file keeps the receipt, if the write replaced it.
   */
  lemma FailedAcknowledgeUndone(s: Producer, id: string, revision: string, receipt: Receipt, w: Write)
    requires Consistent(s) && IsNew(s, id, revision, receipt)
    requires Reaches(s, w) ==> w.Threw? || w.Interrupted?
    ensures Acknowledge(s, id, revision, receipt, w) ==
      Persist(s, w).(stored := Persist(Marked(s, id, revision, receipt), w).stored)
  {
    hide PrepareAll, Mirrored, Unmirrored, SoundTasks, SoundIssued, SoundResults, Snapshot, Restore, SetReceipt, Commit;
    ReceiptUndone(s.results, id, revision, receipt);
    MirrorUndone(s, id, revision, receipt);
    MarkedReaches(s, id, revision, receipt, w);
    if Reaches(s, w) && w.Interrupted? {
      CommitUndone(s, id, revision, receipt);
    }
  }

  lemma EntriesHead(tasks: seq<Task>)
    requires tasks != []
    ensures var entries := ResultEntries(tasks);
      if HasResult(tasks[0])
      then entries != [] && entries[0] == (TaskKey(tasks[0]), SavedOf(tasks[0]))
           && entries[1..] == ResultEntries(tasks[1..])
      else entries == ResultEntries(tasks[1..])
  {
  }

  lemma {:induction false} EntryHasTask(tasks: seq<Task>, k: Key)
    requires Lookup(ResultEntries(tasks), k).Some?
    ensures IsLive(tasks, k)
  {
    EntriesHead(tasks);
    if HasResult(tasks[0]) && TaskKey(tasks[0]) == k {
      assert LiveAt(tasks[0], k);
    } else {
      EntryHasTask(tasks[1..], k);
      var i :| 0 <= i < |tasks[1..]| && LiveAt(tasks[1..][i], k);
      assert LiveAt(tasks[i + 1], k);
    }
  }

  lemma {:induction false} EntriesUnique(tasks: seq<Task>)
    requires DistinctTasks(tasks)
    ensures Unique(ResultEntries(tasks))
  {
    if tasks != [] {
      assert forall i :: 0 <= i < |tasks[1..]| ==> tasks[1..][i] == tasks[i + 1];
      EntriesUnique(tasks[1..]);
      EntriesHead(tasks);
      if HasResult(tasks[0]) {
        assert LiveAt(tasks[0], TaskKey(tasks[0]));
        if Lookup(ResultEntries(tasks[1..]), TaskKey(tasks[0])).Some? {
          EntryHasTask(tasks[1..], TaskKey(tasks[0]));
        }
      }
    }
  }

  lemma {:induction false} EntriesAgree(tasks: seq<Task>, results: seq<(Key, Saved)>, issued: map<Key, Work>)
    requires forall i :: 0 <= i < |tasks| ==> SoundTask(tasks[i], results, issued)
    ensures Agrees(results, ResultEntries(tasks))
  {
    if tasks != [] {
      assert SoundTask(tasks[0], results, issued);
      assert forall i :: 0 <= i < |tasks[1..]| ==> tasks[1..][i] == tasks[i + 1];
      hide SoundTask;
      EntriesAgree(tasks[1..], results, issued);
      var rest := ResultEntries(tasks[1..]);
      assert HasResult(tasks[0]) ==>
        forall i :: 1 <= i < |ResultEntries(tasks)| ==> ResultEntries(tasks)[i] == rest[i - 1];
    }
  }

  /** A commit appends the results that are new, and moves nothing. */
  lemma CommitAppends(s: Producer)
    requires Consistent(s)
    ensures Commit(s.results, s.tasks) == s.results + Missing(s.results, ResultEntries(s.tasks))
  {
    EntriesUnique(s.tasks);
    EntriesAgree(s.tasks, s.results, s.issued);
    PutAllAgreeing(s.results, ResultEntries(s.tasks));
  }

  /** A receipt on the task of a committed result changes nothing of what is still to be appended. */
  lemma {:induction false} MissingSame(tasks: seq<Task>, at: nat, t: Task, before: seq<(Key, Saved)>,
                                       after: seq<(Key, Saved)>)
    requires at < |tasks| && HasResult(tasks[at]) && HasResult(t) && TaskKey(t) == TaskKey(tasks[at])
    requires Lookup(before, TaskKey(t)).Some? && forall k :: Lookup(after, k).Some? <==> Lookup(before, k).Some?
    ensures Missing(after, ResultEntries(tasks[at := t])) == Missing(before, ResultEntries(tasks))
  {
    EntriesHead(tasks);
    EntriesHead(tasks[at := t]);
    hide ResultEntries;
    if at == 0 {
      assert tasks[0 := t][1..] == tasks[1..];
      MissingAlike(tasks[1..], before, after);
    } else {
      assert tasks[at := t][1..] == tasks[1..][at - 1 := t];
      MissingSame(tasks[1..], at - 1, t, before, after);
    }
  }

  lemma {:induction false} MissingAlike(tasks: seq<Task>, before: seq<(Key, Saved)>, after: seq<(Key, Saved)>)
    requires forall k :: Lookup(after, k).Some? <==> Lookup(before, k).Some?
    ensures Missing(after, ResultEntries(tasks)) == Missing(before, ResultEntries(tasks))
  {
    if tasks != [] {
      EntriesHead(tasks);
      MissingAlike(tasks[1..], before, after);
    }
  }

  lemma {:induction false} ReceiptBehind(results: seq<(Key, Saved)>, later: seq<(Key, Saved)>, id: string,
                                         revision: string, receipt: Receipt, value: bool)
    requires SetReceipt(results, id, revision, receipt, value).Some?
    ensures var (marked, changed) := SetReceipt(results, id, revision, receipt, value).value;
      SetReceipt(results + later, id, revision, receipt, value) == Some((marked + later, changed))
  {
    assert (results + later)[0] == results[0] && (results + later)[1..] == results[1..] + later;
    var (marked, changed) := SetReceipt(results, id, revision, receipt, value).value;
    if !Names(results[0].1, id, revision) {
      ReceiptBehind(results[1..], later, id, revision, receipt, value);
      Strings.Assoc([results[0]], marked[1..], later);
    } else if changed {
      Strings.Assoc([marked[0]], results[1..], later);
    }
  }

  /** The receipt is taken back from the committed results as if they had been committed without it. */
  lemma CommitUndone(s: Producer, id: string, revision: string, receipt: Receipt)
    requires Consistent(s) && IsNew(s, id, revision, receipt)
    ensures var p, m := Prepared(s), Prepared(Marked(s, id, revision, receipt));
      SetReceipt(Commit(m.results, m.tasks), id, revision, receipt, false) == Some((Commit(p.results, p.tasks), true))
  {
    hide PrepareAll, SetReceipt, SoundIssued, SoundResults, SoundTasks, FindTask, Commit, ResultEntries, Consistent;
    var p, m := Prepared(s), Prepared(Marked(s, id, revision, receipt));
    var k := SetReceiptChanges(s.results, id, revision, receipt, true) by { ResultsUnique(s); }
    var named := MarkedKeeps(s, id, revision, receipt);
    PreparedKeeps(s);
    PreparedKeeps(Marked(s, id, revision, receipt));
    CommitAppends(p);
    CommitAppends(m);
    MirroredPrepares(s, id, revision, receipt);
    FindsTheTask(s, id, revision, k);
    var at := FindTask(s.tasks, id, revision);
    if at.None? {
      MissingAlike(p.tasks, p.results, m.results);
    } else {
      MissingSame(p.tasks, at.value, WithReceipt(s.tasks[at.value], receipt, true, true), p.results, m.results);
    }
    ReceiptUndone(s.results, id, revision, receipt);
    ReceiptBehind(m.results, Missing(p.results, ResultEntries(p.tasks)), id, revision, receipt, false);
  }

  lemma ResultsUnique(s: Producer)
    requires Consistent(s)
    ensures Unique(s.results)
  {
  }

  lemma MirrorUndone(s: Producer, id: string, revision: string, receipt: Receipt)
    requires Consistent(s) && IsNew(s, id, revision, receipt)
    ensures var mirrored := Mirrored(s.tasks, id, revision, receipt);
      && Unmirrored(mirrored, s.tasks, id, revision, receipt) == s.tasks
      && Unmirrored(PrepareAll(mirrored, s.deliveries).0, s.tasks, id, revision, receipt)
           == PrepareAll(s.tasks, s.deliveries).0
  {
    hide PrepareAll, FindTask, SoundTasks, SoundIssued;
    MirroredPrepares(s, id, revision, receipt);
    var k := SetReceiptChanges(s.results, id, revision, receipt, true);
    FindsTheTask(s, id, revision, k);
    hide SetReceipt, SoundResults;
    match FindTask(s.tasks, id, revision)
    case None =>
    case Some(at) =>
      WithoutReceipt(s.tasks, at, s.tasks[at], receipt);
      WithoutReceipt(PrepareAll(s.tasks, s.deliveries).0, at, s.tasks[at], receipt);
  }

  lemma WithoutReceipt(tasks: seq<Task>, at: nat, t: Task, receipt: Receipt)
    requires at < |tasks| && tasks[at] == t && t.flow.Some? && t.flow.value.result.Some?
    requires Flagged(t.flow.value.result.value, receipt, false) == t.flow.value.result.value
    ensures var marked := WithReceipt(t, receipt, true, true);
      tasks[at := marked][at := WithReceipt(marked, receipt, false, t.exitNotified)] == tasks
  {
    assert WithReceipt(WithReceipt(t, receipt, true, true), receipt, false, t.exitNotified) == t;
  }

  /** No two executions have a result of the same name. */
  lemma AcknowledgedKey(s: Producer, id: string, revision: string, receipt: Receipt) returns (k: Key)
    requires Consistent(s)
    ensures forall j :: Lookup(s.results, j).Some? && Names(Lookup(s.results, j).value, id, revision) ==> j == k
  {
    k := SetReceiptChanges(s.results, id, revision, receipt, true);
    forall j | Lookup(s.results, j).Some? && Names(Lookup(s.results, j).value, id, revision)
      ensures j == k
    {
      ResultIdNames(j.2, k.2);
    }
  }

  // ---------- Every event keeps both copies, and turns the card ----------

  lemma SameCopy(s: Producer, t: Producer)
    requires s.tasks == t.tasks && s.results == t.results && s.issued == t.issued
    ensures Consistent(s) <==> Consistent(t)
    ensures SameEntries(s, t)
  {
  }

  lemma IssuedTask(s: Producer, t: Task, i: nat)
    requires Consistent(s) && Issuable(s.issued, t) && i < |s.tasks|
    ensures SoundTask(s.tasks[i], s.results, Issue(s, t).issued)
    ensures Scoped(t) ==> !LiveAt(s.tasks[i], TaskKey(t))
  {
    hide SoundIssued, SoundResults;
    assert SoundTask(s.tasks[i], s.results, s.issued);
  }

  lemma IssuedResults(s: Producer, t: Task)
    requires Consistent(s) && Issuable(s.issued, t)
    ensures SoundIssued(Issue(s, t).issued) && SoundResults(s.results, Issue(s, t).issued)
    ensures SoundTask(t, s.results, Issue(s, t).issued)
    ensures Scoped(t) ==> Lookup(s.results, TaskKey(t)).None?
  {
    hide SoundTasks;
    if Scoped(t) {
      assert Lookup(s.results, TaskKey(t)).None?;
    }
  }

  /** Naming a fresh execution changes neither copy. */
  lemma IssueKeeps(s: Producer, t: Task)
    requires Consistent(s) && Issuable(s.issued, t)
    ensures Consistent(Issue(s, t)) && SameEntries(s, Issue(s, t))
    ensures Scoped(t) ==> EntryOf(s, TaskKey(t)) == Unknown
  {
    IssuedResults(s, t);
    forall i | 0 <= i < |s.tasks|
      ensures SoundTask(s.tasks[i], s.results, Issue(s, t).issued)
      ensures Scoped(t) ==> !LiveAt(s.tasks[i], TaskKey(t))
    {
      IssuedTask(s, t, i);
    }
    hide SoundTask, SoundIssued, SoundResults, Issuable, Lookup;
  }

  lemma StartKeeps(s: Producer, t: Task)
    requires Consistent(s) && Issuable(s.issued, t)
    ensures Consistent(Start(s, t))
    ensures forall k :: EntryOf(Start(s, t), k) == if LiveAt(t, k) then Owed else EntryOf(s, k)
  {
    IssueKeeps(s, t);
    IssuedResults(s, t);
    var after := Start(s, t);
    forall i | 0 <= i < |s.tasks|
      ensures after.tasks[i] == s.tasks[i] && SoundTask(after.tasks[i], after.results, after.issued)
      ensures Scoped(t) ==> !LiveAt(s.tasks[i], TaskKey(t))
    {
      IssuedTask(s, t, i);
    }
    hide SoundTask, SoundIssued, SoundResults, Issuable, Lookup;
    assert after.tasks[|s.tasks|] == t;
    assert SoundTasks(after.tasks, after.results, after.issued);
    forall k
      ensures IsLive(after.tasks, k) <==> IsLive(s.tasks, k) || LiveAt(t, k)
    {
      LiveAppended(s.tasks, t, k);
    }
  }

  lemma LiveAppended(tasks: seq<Task>, t: Task, k: Key)
    ensures IsLive(tasks + [t], k) <==> IsLive(tasks, k) || LiveAt(t, k)
  {
    hide LiveAt;
    var after := tasks + [t];
    assert after[|tasks|] == t && forall i :: 0 <= i < |tasks| ==> after[i] == tasks[i];
  }

  lemma EndKeeps(s: Producer, i: nat, status: Status, byShutdown: bool)
    requires Consistent(s) && i < |s.tasks| && s.tasks[i].status.Running? && !status.Running?
    ensures var after := s.(tasks := s.tasks[i := s.tasks[i].(status := status, byShutdown := byShutdown)]);
      Consistent(after) && SameEntries(s, after)
  {
    hide SoundIssued, SoundResults;
    var tasks := s.tasks[i := s.tasks[i].(status := status, byShutdown := byShutdown)];
    forall j | 0 <= j < |tasks|
      ensures SoundTask(tasks[j], s.results, s.issued)
      ensures forall k :: LiveAt(tasks[j], k) <==> LiveAt(s.tasks[j], k)
    {
      assert SoundTask(s.tasks[j], s.results, s.issued);
    }
    SameLiveEntries(s, s.(tasks := tasks));
  }

  lemma LiveRemoved(tasks: seq<Task>, i: nat, k: Key)
    requires DistinctTasks(tasks) && i < |tasks|
    ensures IsLive(tasks[..i] + tasks[i + 1..], k) <==> IsLive(tasks, k) && !LiveAt(tasks[i], k)
  {
    hide LiveAt;
    var rest := tasks[..i] + tasks[i + 1..];
    assert forall j :: 0 <= j < |rest| ==> rest[j] == tasks[if j < i then j else j + 1];
    if IsLive(tasks, k) && !LiveAt(tasks[i], k) {
      var j :| 0 <= j < |tasks| && LiveAt(tasks[j], k);
      assert rest[if j < i then j else j - 1] == tasks[j];
    }
  }

  lemma ClearKeeps(s: Producer, i: nat)
    requires Consistent(s) && i < |s.tasks|
    ensures var after := s.(tasks := s.tasks[..i] + s.tasks[i + 1..]);
      && Consistent(after)
      && forall k :: EntryOf(after, k)
           == (if LiveAt(s.tasks[i], k) && Lookup(s.results, k).None? then Unknown else EntryOf(s, k))
  {
    hide SoundIssued, SoundResults, SoundTask, LiveAt;
    var tasks := s.tasks[..i] + s.tasks[i + 1..];
    forall j | 0 <= j < |tasks|
      ensures tasks[j] == s.tasks[if j < i then j else j + 1] && SoundTask(tasks[j], s.results, s.issued)
    {
    }
    forall k
      ensures IsLive(tasks, k) <==> IsLive(s.tasks, k) && !LiveAt(s.tasks[i], k)
    {
      LiveRemoved(s.tasks, i, k);
    }
  }

  lemma {:induction false} IndexLookup(m: seq<(Key, Saved)>, i: nat)
    requires Unique(m) && i < |m|
    ensures Lookup(m, m[i].0) == Some(m[i].1)
  {
    if i > 0 {
      IndexLookup(m[1..], i - 1);
    }
  }

  lemma SoundIsKeyed(results: seq<(Key, Saved)>, issued: map<Key, Work>)
    requires SoundResults(results, issued) && SoundIssued(issued)
    ensures Keyed(results) && SafeWorks(results)
  {
    forall i | 0 <= i < |results|
      ensures results[i].0 == ResultKey(results[i].1.scope, results[i].1.result.metadata.execution)
      ensures results[i].1.work.Some? ==> SafeWork(results[i].1.work.value)
    {
      IndexLookup(results, i);
    }
  }

  /** A new process that reads what was just written finds what a commit would have kept in memory. */
  lemma RestartCommits(s: Producer)
    requires Consistent(s)
    ensures Restore([], Snapshot(s.results, s.tasks)) == Commit(s.results, s.tasks)
  {
    hide Commit, Restore, Snapshot;
    SoundIsKeyed(s.results, s.issued);
    forall i | 0 <= i < |s.tasks| && HasResult(s.tasks[i])
      ensures s.tasks[i].flow.value.result.value.metadata.execution == s.tasks[i].flow.value.execution
    {
      assert SoundTask(s.tasks[i], s.results, s.issued);
    }
    SnapshotRestores(s.results, s.tasks);
    CommitKeeps(s);
    SoundIsKeyed(Commit(s.results, s.tasks), s.issued);
  }

  /** A state with another file, and with the same memory. */
  lemma FileChanges(s: Producer, stored: Stored)
    requires Consistent(s)
    ensures Consistent(s.(stored := stored)) && SameEntries(s, s.(stored := stored))
  {
    SameCopy(s, s.(stored := stored));
  }

  lemma WriteKeeps(s: Producer, w: Write)
    requires Kept(s) && !w.Refused?
    ensures Kept(WriteNow(s, w)) && WriteNow(s, w).issued == s.issued
    ensures forall k :: CardOf(WriteNow(s, w), k) == Turn(CardOf(s, k), Written(false, w))
  {
    hide Commit, Restore, Snapshot, Consistent, EntryOf;
    var written := s.(stored := Stored(s.tasks, Snapshot(s.results, s.tasks)));
    RestartCommits(s);
    CommitKeeps(s);
    SameCopy(Reopened(written), s.(results := Commit(s.results, s.tasks)));
    FileChanges(s, written.stored);
    FileChanges(s.(results := Commit(s.results, s.tasks)), written.stored);
    SameCopy(Reopened(WriteNow(s, w)), if Replaces(w) then Reopened(written) else Reopened(s));
  }

  lemma PersistKeeps(s: Producer, w: Write)
    requires Kept(s)
    ensures Kept(Persist(s, w)) && Persist(s, w).issued == s.issued
    ensures var mark := if Reaches(s, w) then Written(false, w) else Nothing;
      forall k :: CardOf(Persist(s, w), k) == Turn(CardOf(s, k), mark)
  {
    hide Consistent, EntryOf, WriteNow, PrepareAll;
    var p := Prepared(s);
    PreparedKeeps(s);
    SameCopy(Reopened(p), Reopened(s));
    if Reaches(s, w) {
      WriteKeeps(p, w);
    }
  }

  lemma AcknowledgeKeeps(s: Producer, id: string, revision: string, receipt: Receipt, w: Write)
    requires Kept(s)
    ensures var e := EAcknowledge(id, revision, receipt, w); var after := Acknowledge(s, id, revision, receipt, w);
      && Kept(after) && after.issued == s.issued
      && forall k :: CardOf(after, k) == Turn(CardOf(s, k), MarkAs(s, e, k))
  {
    hide Consistent, EntryOf, Persist, PrepareAll, Mirrored, SetReceipt, Undone;
    if IsNew(s, id, revision, receipt) {
      var m := Marked(s, id, revision, receipt);
      var k := MarkedKeeps(s, id, revision, receipt);
      var j := AcknowledgedKey(s, id, revision, receipt);
      MarkedReaches(s, id, revision, receipt, w);
      SameCopy(Reopened(m), Reopened(s));
      PersistKeeps(m, w);
      if !Reaches(s, w) || w.Threw? || w.Interrupted? || w.Refused? {
        AcknowledgeFails(s, id, revision, receipt, w);
        assert forall k :: CardOf(Acknowledge(s, id, revision, receipt, w), k).disk == CardOf(Persist(m, w), k).disk;
      }
    }
  }

  lemma AcknowledgeFails(s: Producer, id: string, revision: string, receipt: Receipt, w: Write)
    requires Kept(s) && IsNew(s, id, revision, receipt) && (Reaches(s, w) ==> w.Threw? || w.Interrupted?)
    requires Consistent(Reopened(Persist(Marked(s, id, revision, receipt), w)))
    requires Persist(Marked(s, id, revision, receipt), w).issued == s.issued
    ensures var after := Acknowledge(s, id, revision, receipt, w);
      && Kept(after) && SameEntries(s, after) && after.issued == s.issued
      && SameEntries(Reopened(Persist(Marked(s, id, revision, receipt), w)), Reopened(after))
  {
    hide Consistent, EntryOf, Persist, PrepareAll, Mirrored, SetReceipt, Undone, Acknowledge;
    FailedAcknowledgeUndone(s, id, revision, receipt, w);
    var after := Acknowledge(s, id, revision, receipt, w);
    var persisted := Persist(Marked(s, id, revision, receipt), w);
    PersistKeeps(s, w);
    FileChanges(Persist(s, w), persisted.stored);
    forall k
      ensures EntryOf(s, k) == EntryOf(after, k)
    {
      assert CardOf(Persist(s, w), k).memory == CardOf(s, k).memory;
    }
    SameCopy(Reopened(persisted), Reopened(after));
  }

  lemma DeliveriesAreFree(s: Producer, deliveries: map<string, Scope>)
    requires Kept(s)
    ensures Kept(s.(deliveries := deliveries))
    ensures forall k :: CardOf(s.(deliveries := deliveries), k) == CardOf(s, k)
  {
    SameCopy(s, s.(deliveries := deliveries));
    SameCopy(Reopened(s), Reopened(s.(deliveries := deliveries)));
  }

  lemma ChangesOnlyMemory(s: Producer, after: Producer)
    requires Kept(s) && Consistent(after) && after.stored == s.stored && after.issued == s.issued
    ensures Kept(after)
    ensures forall k :: CardOf(after, k).disk == CardOf(s, k).disk
  {
    SameCopy(Reopened(s), Reopened(after));
  }

  lemma StartTurns(s: Producer, t: Task)
    requires Kept(s) && Startable(s, t)
    ensures Kept(Start(s, t))
    ensures forall k :: CardOf(Start(s, t), k) == Turn(CardOf(s, k), MarkAs(s, EStart(t), k))
    ensures forall k :: k in s.issued ==> k in Start(s, t).issued && Start(s, t).issued[k] == s.issued[k]
  {
    hide Consistent, EntryOf, Startable;
    assert Issuable(s.issued, t) by { StartsIssuable(s, t); }
    StartKeeps(s, t);
    IssueKeeps(s, t);
    IssueKeeps(Reopened(s), t);
    SameCopy(Issue(Reopened(s), t), Reopened(Start(s, t)));
    IssuesFresh(s, t);
  }

  lemma StartsIssuable(s: Producer, t: Task)
    requires Startable(s, t)
    ensures Issuable(s.issued, t)
  {
  }

  lemma IssuesFresh(s: Producer, t: Task)
    requires Issuable(s.issued, t)
    ensures forall k :: k in s.issued ==> k in Start(s, t).issued && Start(s, t).issued[k] == s.issued[k]
  {
  }

  lemma ApplyTurns(s: Producer, e: Event)
    requires Kept(s)
    ensures Kept(Apply(s, e))
    ensures forall k :: CardOf(Apply(s, e), k) == Turn(CardOf(s, k), MarkAs(s, e, k))
    ensures forall k :: k in s.issued ==> k in Apply(s, e).issued && Apply(s, e).issued[k] == s.issued[k]
  {
    hide Consistent, EntryOf, Acknowledge, WriteNow, Persist, PrepareAll, Startable, IsNew, Reaches;
    match e
    case EStart(t) =>
      if Startable(s, t) {
        StartTurns(s, t);
      }
    case EEnd(i, status, byShutdown) =>
      if i < |s.tasks| && s.tasks[i].status.Running? && !status.Running? {
        EndKeeps(s, i, status, byShutdown);
        ChangesOnlyMemory(s, Apply(s, e));
      }
    case EDeliver(deliveries) => DeliveriesAreFree(s, deliveries);
    case EClear(i) =>
      if Clearable(s, i) {
        ClearKeeps(s, i);
        ChangesOnlyMemory(s, Apply(s, e));
        ClearTurns(s, i);
      }
    case EPrepare =>
      PreparedKeeps(s);
      ChangesOnlyMemory(s, Prepared(s));
    case EWrite(w) =>
      if !w.Refused? {
        WriteKeeps(s, w);
      }
    case EPersist(w) => PersistKeeps(s, w);
    case EAcknowledge(id, revision, receipt, w) => AcknowledgeKeeps(s, id, revision, receipt, w);
    case ERestart(readable) =>
      if readable {
        SameCopy(Reopened(s), Reopened(Reopened(s)));
      } else {
        BlindedKeeps(s);
      }
  }

  lemma BlindedKeeps(s: Producer)
    requires Kept(s)
    ensures Kept(Blinded(s))
    ensures forall k :: CardOf(Blinded(s), k) == Card(Unknown, CardOf(s, k).disk)
  {
    SameCopy(Reopened(s), Reopened(Blinded(s)));
    NothingIsConsistent(s);
  }

  lemma NothingIsConsistent(s: Producer)
    requires Consistent(s)
    ensures Consistent(Blinded(s)) && forall k :: EntryOf(Blinded(s), k) == Unknown
  {
  }

  /**
   * One event does to what is known of each execution, in memory and on disk, what its mark says: the
   * tasks, the result map, the snapshots and the receipts amount to two copies of one entry.
   */
  lemma StepTurns(s: Producer, e: Event)
    requires Kept(s)
    ensures Kept(Step(s, e))
    ensures forall k :: CardOf(Step(s, e), k) == Turn(CardOf(s, k), MarkOf(s, e, k))
    ensures forall k :: k in s.issued ==> k in Step(s, e).issued && Step(s, e).issued[k] == s.issued[k]
  {
    hide Kept, CardOf, Apply, MarkAs, Turn;
    ApplyTurns(s, Allowed(s, e));
  }

  /** A cleared task leaves its execution unknown in memory unless its result was committed. */
  lemma ClearTurns(s: Producer, i: nat)
    requires Consistent(s) && Clearable(s, i)
    ensures forall k :: LiveAt(s.tasks[i], k) && Lookup(s.results, k).None? ==> EntryOf(s, k) == Owed
  {
  }
}
