// Publications of upstream/background-flow/runtime.ts to the listeners of one execution: what
// evidence a listener is told, and how often.
module BackgroundPublication {
  import opened JsMap
  import opened BackgroundRecords
  import opened BackgroundResults

  datatype Identity = Identity(scope: Scope, workId: string, handle: string, execution: string)

  /** One check of the process: its time, which is also its revision, its outcome and the process. */
  datatype Health = Health(observedAt: int, alive: bool, pid: int)

  datatype Until = Pending | Satisfied | Broken | CalledOff | Lost

  datatype Evidence = Evidence(identity: Identity, revision: nat, until: Until, health: Option<Health>)

  /** `told` lists the evidence the listener was called with. */
  datatype Listener =
    Listener(identity: Identity, signature: Option<Evidence>, health: Option<Health>, told: seq<Evidence>)

  /**
   * What one listener meets in a publication: the clock, whether the process would be found alive, and
   * whether its callback throws if it is called.
   */
  datatype Probe = Probe(now: int, alive: bool, throws: bool)

  const CADENCE_MS := 60_000

  predicate UsablePid(t: Task)
  {
    t.pid.Some? && 0 < t.pid.value <= MAX_SAFE_INTEGER
  }

  /** A running task's last check is reused until the cadence elapses; a clock set back checks again. */
  function PublicationHealth(t: Task, retained: Option<Health>, probe: Probe): Option<Health>
  {
    if !t.status.Running? || !UsablePid(t) then None
    else if retained.Some? && retained.value.pid == t.pid.value && probe.now >= retained.value.observedAt
            && probe.now - retained.value.observedAt < CADENCE_MS then retained
    else Some(Health(probe.now, probe.alive, t.pid.value))
  }

  function TaskState(t: Task): Option<Until>
  {
    match t.status
    case Running => Some(Pending)
    case Completed => Some(Satisfied)
    case Failed => Some(Broken)
    case TimedOut => Some(Broken)
    case Stopped => Some(if t.byShutdown then CalledOff else Lost)
    case Unsupported => None
  }

  /** The listener follows this very execution. */
  predicate Addressed(identity: Identity, t: Task)
  {
    && t.flow.Some? && t.flow.value.scope == Some(identity.scope) && t.id == identity.handle
    && t.flow.value.execution == identity.execution
    && t.flow.value.work.Some? && t.flow.value.work.value.id == identity.workId
  }

  /** The evidence for an addressed task; none when the session or the status is wrong, which throws. */
  function EvidenceOf(t: Task, identity: Identity, retained: Option<Health>, probe: Probe): Option<Evidence>
  {
    if t.sessionId != Some(identity.scope.sessionId) || TaskState(t).None? then None
    else
      var state := TaskState(t).value;
      Some(Evidence(identity, if state.Pending? then 1 else 2, state, PublicationHealth(t, retained, probe)))
  }

  /** One listener's part of a publication, and whether it threw. */
  function PublishTo(l: Listener, t: Task, probe: Probe): (Listener, bool)
  {
    if !Addressed(l.identity, t) then (l, false)
    else
      match EvidenceOf(t, l.identity, l.health, probe)
      case None => (l, true)
      case Some(current) =>
        if l.signature == Some(current) then (l.(health := current.health), false)
        else (l.(health := current.health, signature := Some(current), told := l.told + [current]), probe.throws)
  }

  /** A publication serves the listeners in turn; the first throw ends it. */
  function PublishAll(listeners: seq<Listener>, t: Task, probes: seq<Probe>): (r: (seq<Listener>, bool))
    requires |probes| == |listeners|
    ensures |r.0| == |listeners|
  {
    if listeners == [] then ([], false)
    else
      var (first, threw) := PublishTo(listeners[0], t, probes[0]);
      if threw then ([first] + listeners[1..], true)
      else
        var (rest, later) := PublishAll(listeners[1..], t, probes[1..]);
        ([first] + rest, later)
  }

  datatype Publication = Publication(task: Task, probe: Probe)

  /** One listener over a run of publications. */
  function Follow(l: Listener, ps: seq<Publication>): Listener
  {
    if ps == [] then l
    else
      var last := ps[|ps| - 1];
      PublishTo(Follow(l, ps[..|ps| - 1]), last.task, last.probe).0
  }

  function Subscribed(identity: Identity): Listener
  {
    Listener(identity, None, None, [])
  }

  // ---------- The invariant ----------

  /** The signature is the last evidence told, and the retained check is the one it carries. */
  predicate Settled(l: Listener)
  {
    match l.signature
    case None => l.health.None? && l.told == []
    case Some(last) =>
      && last.identity == l.identity && last.health == l.health
      && last.revision == (if last.until.Pending? then 1 else 2)
      && (last.health.Some? ==> last.until.Pending?)
      && l.told != [] && l.told[|l.told| - 1] == last
  }

  lemma {:induction false} FollowSettles(identity: Identity, ps: seq<Publication>)
    ensures Settled(Follow(Subscribed(identity), ps)) && Follow(Subscribed(identity), ps).identity == identity
  {
    if ps != [] {
      FollowSettles(identity, ps[..|ps| - 1]);
    }
  }

  // ---------- No change is suppressed ----------

  /** The state that the last publication with evidence for this listener showed. */
  function LatestState(identity: Identity, ps: seq<Publication>): Option<Until>
  {
    if ps == [] then None
    else
      var last := ps[|ps| - 1];
      if Addressed(identity, last.task) && last.task.sessionId == Some(identity.scope.sessionId)
         && TaskState(last.task).Some? then TaskState(last.task)
      else LatestState(identity, ps[..|ps| - 1])
  }

  /** After every publication of every run, the last state told is the state last published. */
  lemma {:induction false} NothingIsSuppressed(identity: Identity, ps: seq<Publication>)
    ensures var told := Follow(Subscribed(identity), ps).told;
      LatestState(identity, ps) == if told == [] then None else Some(told[|told| - 1].until)
  {
    if ps != [] {
      NothingIsSuppressed(identity, ps[..|ps| - 1]);
      FollowSettles(identity, ps[..|ps| - 1]);
    }
  }

  /** And no evidence is told twice in a row. */
  lemma {:induction false} NothingIsRepeated(identity: Identity, ps: seq<Publication>)
    ensures var told := Follow(Subscribed(identity), ps).told;
      forall i :: 0 < i < |told| ==> told[i - 1] != told[i]
  {
    if ps != [] {
      NothingIsRepeated(identity, ps[..|ps| - 1]);
      FollowSettles(identity, ps[..|ps| - 1]);
    }
  }

  // ---------- All listeners, one publication after another ----------

  /** One publication, with what each listener meets in it. */
  datatype Round = Round(task: Task, probes: seq<Probe>)

  predicate Fits(listeners: seq<Listener>, rounds: seq<Round>)
  {
    forall i :: 0 <= i < |rounds| ==> |rounds[i].probes| == |listeners|
  }

  function RunRounds(listeners: seq<Listener>, rounds: seq<Round>): (after: seq<Listener>)
    requires Fits(listeners, rounds)
    ensures |after| == |listeners|
  {
    if rounds == [] then listeners
    else
      var last := rounds[|rounds| - 1];
      PublishAll(RunRounds(listeners, rounds[..|rounds| - 1]), last.task, last.probes).0
  }

  /** The listener throws when it is served: its evidence is refused, or its callback is called and throws. */
  predicate Throws(l: Listener, t: Task, probe: Probe)
  {
    && Addressed(l.identity, t)
    && match EvidenceOf(t, l.identity, l.health, probe)
       case None => true
       case Some(current) => l.signature != Some(current) && probe.throws
  }

  /** The publication reaches listener `i`: no listener before it throws. */
  predicate ReachesListener(listeners: seq<Listener>, round: Round, i: nat)
    requires |round.probes| == |listeners| && i < |listeners|
  {
    forall j :: 0 <= j < i ==> !Throws(listeners[j], round.task, round.probes[j])
  }

  /** The loop serves exactly the listeners it reaches, each as if it were alone. */
  lemma {:induction false} LoopServes(listeners: seq<Listener>, t: Task, probes: seq<Probe>, i: nat)
    requires |probes| == |listeners| && i < |listeners|
    ensures PublishAll(listeners, t, probes).0[i] ==
      if ReachesListener(listeners, Round(t, probes), i) then PublishTo(listeners[i], t, probes[i]).0 else listeners[i]
  {
    hide EvidenceOf, Addressed;
    assert PublishTo(listeners[0], t, probes[0]).1 == Throws(listeners[0], t, probes[0]) by {
      ThrowsExactly(listeners[0], t, probes[0]);
    }
    if i > 0 {
      LoopServes(listeners[1..], t, probes[1..], i - 1);
      assert forall j :: 1 <= j < |listeners| ==> listeners[1..][j - 1] == listeners[j] && probes[1..][j - 1] == probes[j];
      ReachesRest(listeners, t, probes, i);
    }
  }

  lemma ThrowsExactly(l: Listener, t: Task, probe: Probe)
    ensures PublishTo(l, t, probe).1 == Throws(l, t, probe)
  {
  }

  lemma ReachesRest(listeners: seq<Listener>, t: Task, probes: seq<Probe>, i: nat)
    requires |probes| == |listeners| && 0 < i < |listeners|
    ensures ReachesListener(listeners, Round(t, probes), i) <==>
      !Throws(listeners[0], t, probes[0]) && ReachesListener(listeners[1..], Round(t, probes[1..]), i - 1)
  {
    hide Throws;
    assert forall j :: 1 <= j < |listeners| ==>
      Throws(listeners[1..][j - 1], t, probes[1..][j - 1]) == Throws(listeners[j], t, probes[j]);
    if ReachesListener(listeners, Round(t, probes), i) {
      assert !Throws(listeners[0], t, probes[0]);
      forall j | 0 <= j < i - 1
        ensures !Throws(listeners[1..][j], t, probes[1..][j])
      {
        assert !Throws(listeners[j + 1], t, probes[j + 1]);
      }
    }
    if !Throws(listeners[0], t, probes[0]) && ReachesListener(listeners[1..], Round(t, probes[1..]), i - 1) {
      forall j | 0 <= j < i
        ensures !Throws(listeners[j], t, probes[j])
      {
        assert j > 0 ==> !Throws(listeners[1..][j - 1], t, probes[1..][j - 1]);
      }
    }
  }

  /** The publications that reach listener `i`, in order. */
  function Reaching(listeners: seq<Listener>, rounds: seq<Round>, i: nat): seq<Publication>
    requires Fits(listeners, rounds) && i < |listeners|
  {
    if rounds == [] then []
    else
      var n := |rounds| - 1;
      Reaching(listeners, rounds[..n], i)
      + (if ReachesListener(RunRounds(listeners, rounds[..n]), rounds[n], i)
         then [Publication(rounds[n].task, rounds[n].probes[i])] else [])
  }

  /** Over every run of publications a listener follows those that reach it, and no others. */
  lemma {:induction false} RoundsServe(listeners: seq<Listener>, rounds: seq<Round>, i: nat)
    requires Fits(listeners, rounds) && i < |listeners|
    ensures RunRounds(listeners, rounds)[i] == Follow(listeners[i], Reaching(listeners, rounds, i))
  {
    hide PublishAll, PublishTo, ReachesListener;
    if rounds != [] {
      var n := |rounds| - 1;
      var before := RunRounds(listeners, rounds[..n]);
      RoundsServe(listeners, rounds[..n], i);
      LoopServes(before, rounds[n].task, rounds[n].probes, i);
      var served := Reaching(listeners, rounds[..n], i);
      if ReachesListener(before, rounds[n], i) {
        var p := Publication(rounds[n].task, rounds[n].probes[i]);
        assert (served + [p])[..|served|] == served;
      } else {
        assert served + [] == served;
      }
    }
  }

  function SubscribedAll(identities: seq<Identity>): (listeners: seq<Listener>)
    ensures |listeners| == |identities|
    ensures forall i :: 0 <= i < |identities| ==> listeners[i] == Subscribed(identities[i])
  {
    if identities == [] then [] else [Subscribed(identities[0])] + SubscribedAll(identities[1..])
  }

  /**
   * After every run of publications to any listeners, the last state a listener was told is the state
   * that the last publication to reach it showed. In the next publication that has evidence for it, it
   * learns the state exactly when no listener before it throws, or when it knew that state already.
   */
  lemma LoopTells(identities: seq<Identity>, rounds: seq<Round>, round: Round, i: nat)
    requires i < |identities| == |round.probes|
    requires Fits(SubscribedAll(identities), rounds)
    ensures var subscribed := SubscribedAll(identities);
            var before := RunRounds(subscribed, rounds);
            var after := PublishAll(before, round.task, round.probes).0[i];
      && LastTold(before[i]) == LatestState(identities[i], Reaching(subscribed, rounds, i))
      && (HasEvidence(identities[i], round.task) ==>
            (LastTold(after) == TaskState(round.task) <==>
               ReachesListener(before, round, i) || LastTold(before[i]) == TaskState(round.task)))
  {
    hide PublishAll, PublishTo, RunRounds, Reaching, ReachesListener, Follow, LatestState;
    var subscribed := SubscribedAll(identities);
    var before := RunRounds(subscribed, rounds);
    RoundsServe(subscribed, rounds, i);
    NothingIsSuppressed(identities[i], Reaching(subscribed, rounds, i));
    FollowSettles(identities[i], Reaching(subscribed, rounds, i));
    LoopServes(before, round.task, round.probes, i);
    if HasEvidence(identities[i], round.task) {
      ServedIsTold(before[i], round.task, round.probes[i]);
    }
  }

  /** A publication in which that happens: of two listeners to one job the first throws, the second learns nothing. */
  lemma ThrowSilences()
    ensures var identity := Identity(HOME, "work", "bg-1", "execution");
            var listeners := SubscribedAll([identity, identity]);
            var (after, threw) := PublishAll(listeners, JOB, [Probe(0, true, true), Probe(0, true, false)]);
      && HasEvidence(identity, JOB) && threw
      && LastTold(after[0]) == Some(Pending) && after[1].told == []
  {
    var identity := Identity(HOME, "work", "bg-1", "execution");
    var listeners, probes := SubscribedAll([identity, identity]), [Probe(0, true, true), Probe(0, true, false)];
    assert PublishTo(listeners[0], JOB, probes[0]).1;
    assert listeners[1..] == [Subscribed(identity)];
  }

  function LastTold(l: Listener): Option<Until>
  {
    if l.told == [] then None else Some(l.told[|l.told| - 1].until)
  }

  /** The task belongs to the listener's session and execution, and its status is a known one. */
  predicate HasEvidence(identity: Identity, t: Task)
  {
    Addressed(identity, t) && t.sessionId == Some(identity.scope.sessionId) && TaskState(t).Some?
  }

  lemma ServedIsTold(l: Listener, t: Task, probe: Probe)
    requires Settled(l) && HasEvidence(l.identity, t)
    ensures LastTold(PublishTo(l, t, probe).0) == TaskState(t)
  {
  }

  // ---------- How often a listener is told ----------

  /** Publications of the listener's task while it runs as one process and the clock does not go back. */
  predicate Steady(identity: Identity, pid: Option<int>, ps: seq<Publication>)
  {
    && (forall i :: 0 <= i < |ps| ==>
          && Addressed(identity, ps[i].task) && ps[i].task.sessionId == Some(identity.scope.sessionId)
          && ps[i].task.status.Running? && ps[i].task.pid == pid)
    && (forall i, j :: 0 <= i < j < |ps| ==> ps[i].probe.now <= ps[j].probe.now)
  }

  /** Once a check is retained, each further notification needs another cadence to pass. */
  lemma {:induction false} EachNeedsACadence(l: Listener, pid: int, ps: seq<Publication>)
    requires Settled(l) && l.health.Some? && l.health.value.pid == pid && 0 < pid <= MAX_SAFE_INTEGER
    requires Steady(l.identity, Some(pid), ps)
    requires forall i :: 0 <= i < |ps| ==> l.health.value.observedAt <= ps[i].probe.now
    ensures var after := Follow(l, ps);
      && Settled(after) && after.identity == l.identity
      && after.health.Some? && after.health.value.pid == pid
      && (|after.told| - |l.told|) * CADENCE_MS <= after.health.value.observedAt - l.health.value.observedAt
      && after.health.value.observedAt <= (if ps == [] then l.health.value.observedAt else ps[|ps| - 1].probe.now)
  {
    hide Settled, Addressed;
    if ps != [] {
      var n := |ps| - 1;
      EachNeedsACadence(l, pid, ps[..n]);
      if n > 0 {
        assert ps[..n][n - 1] == ps[n - 1] && ps[n - 1].probe.now <= ps[n].probe.now;
      }
      NextIsTold(Follow(l, ps[..n]), pid, ps[n]);
    }
  }

  lemma NextIsTold(l: Listener, pid: int, p: Publication)
    requires Settled(l) && l.health.Some? && l.health.value.pid == pid && 0 < pid <= MAX_SAFE_INTEGER
    requires Addressed(l.identity, p.task) && p.task.sessionId == Some(l.identity.scope.sessionId)
    requires p.task.status.Running? && p.task.pid == Some(pid) && l.health.value.observedAt <= p.probe.now
    ensures var next := PublishTo(l, p.task, p.probe).0;
      && Settled(next) && next.identity == l.identity && next.health.Some? && next.health.value.pid == pid
      && next.health.value.observedAt <= p.probe.now
      && (if |next.told| == |l.told| then next.health == l.health
          else |next.told| == |l.told| + 1 && next.health.value.observedAt >= l.health.value.observedAt + CADENCE_MS)
  {
  }

  /** Without a usable process id there is no check, so a running task is told at most once. */
  lemma {:induction false} UncheckedIsToldOnce(l: Listener, pid: Option<int>, ps: seq<Publication>)
    requires Settled(l) && Steady(l.identity, pid, ps)
    requires pid.Some? ==> !(0 < pid.value <= MAX_SAFE_INTEGER)
    ensures var after := Follow(l, ps);
      && Settled(after) && after.identity == l.identity
      && |after.told| <= |l.told| + (if ps == [] then 0 else 1)
      && (ps != [] ==> after.signature == Some(Evidence(l.identity, 1, Pending, None)))
  {
    if ps != [] {
      UncheckedIsToldOnce(l, pid, ps[..|ps| - 1]);
    }
  }

  lemma {:induction false} FollowOn(l: Listener, ps: seq<Publication>, qs: seq<Publication>)
    ensures Follow(l, ps + qs) == Follow(Follow(l, ps), qs)
    decreases |qs|
  {
    if qs == [] {
      assert ps + qs == ps;
    } else {
      assert (ps + qs)[..|ps + qs| - 1] == ps + qs[..|qs| - 1];
      FollowOn(l, ps, qs[..|qs| - 1]);
    }
  }

  /**
   * While a task stays running as one process and the clock does not go back, a listener in any state
   * a run can leave it in is told at most once and then once a cadence, however often the task is
   * published.
   */
  lemma ToldAtCadence(l: Listener, pid: Option<int>, ps: seq<Publication>)
    requires Settled(l) && Steady(l.identity, pid, ps) && ps != []
    ensures |Follow(l, ps).told| - |l.told| <= 1 + (ps[|ps| - 1].probe.now - ps[0].probe.now) / CADENCE_MS
  {
    hide Settled;
    if pid.None? || !(0 < pid.value <= MAX_SAFE_INTEGER) {
      UncheckedIsToldOnce(l, pid, ps);
    } else {
      assert ps[..1] + ps[1..] == ps;
      FollowOn(l, ps[..1], ps[1..]);
      var first := Follow(l, ps[..1]);
      assert ps[..1][..0] == [];
      FirstIsTold(l, pid.value, ps[0]);
      EachNeedsACadence(first, pid.value, ps[1..]);
      var end := Follow(first, ps[1..]);
      var span := ps[|ps| - 1].probe.now - ps[0].probe.now;
      assert end.health.value.observedAt <= ps[|ps| - 1].probe.now;
      CountCadences(|end.told| - |first.told|, |first.told| - |l.told|, first.health.value.observedAt - ps[0].probe.now,
                    end.health.value.observedAt - ps[0].probe.now, span);
    }
  }

  lemma FirstIsTold(l: Listener, pid: int, p: Publication)
    requires Settled(l) && Steady(l.identity, Some(pid), [p]) && 0 < pid <= MAX_SAFE_INTEGER
    ensures var first := PublishTo(l, p.task, p.probe).0;
      && Settled(first) && first.identity == l.identity && first.health.Some? && first.health.value.pid == pid
      && first.health.value.observedAt <= p.probe.now < first.health.value.observedAt + CADENCE_MS
      && |first.told| <= |l.told| + 1
      && (|first.told| > |l.told| ==> first.health.value.observedAt == p.probe.now)
  {
    assert [p][0] == p;
  }

  lemma CountCadences(later: int, first: int, start: int, end: int, span: int)
    requires 0 <= span && end <= span && -CADENCE_MS < start <= 0 && later * CADENCE_MS <= end - start
    requires first <= 1 && (first == 1 ==> start == 0)
    ensures first + later <= 1 + span / CADENCE_MS
  {
  }
}
