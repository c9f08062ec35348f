// What can happen to the adapter of examples/user-input-adapter/extension.ts while it calls out: every
// such call may re-enter it synchronously, to any depth.
module UserInputReentry {
  import opened JsMap

  /** A target, with the registration, lifecycle and operation it was bound for. */
  datatype Binding = Binding(adapter: nat, lifecycle: nat, operation: nat)

  /** A continuation that waits for the host: a registration, a binding, or the rest of a start. */
  datatype Pending =
    | Registering(ticket: nat, lifecycle: nat)
    | Attaching(ticket: nat, binding: Binding, starting: Option<nat>)
    | Starting(ticket: nat, lifecycle: nat)

  /** What a call of `setBinding` with a target found; `receipt` is the subscription kept for it. */
  datatype Publication = Publication(
    binding: Binding, adapter: Option<nat>, lifecycle: nat, operation: nat, receipt: nat, receipts: map<nat, Binding>)

  /**
   * The world: the target the client sees, the live subscriptions, the continuations that wait, the
   * number of session starts, and every target ever published. A receipt subscription belongs to a
   * binding. `shared` says that a start was re-entered by another one while it released the session
   * before it, so that both hold the same lifecycle. `leaked` says that a lifecycle ended while one
   * of its subscriptions was being made, so that it was kept after the release.
   */
  datatype Host = Host(
    published: Option<Binding>, receipts: map<nat, Binding>, messages: set<nat>, reconnects: set<nat>, targets: set<nat>,
    nextId: nat, pending: set<Pending>, sessions: nat, shared: bool, leaked: bool,
    publications: seq<Publication>)

  datatype State = State(
    lifecycle: nat, operation: nat, adapter: Option<nat>, binding: Option<Binding>,
    stopReceipts: Option<nat>, stopMessages: Option<nat>, stopReconnects: Option<nat>, stopTarget: Option<nat>,
    host: Host)

  const LOADED :=
    State(0, 0, None, None, None, None, None, None, Host(None, map[], {}, {}, {}, 0, {}, 0, false, false, []))

  /** What the calls out of one operation re-enter with, call by call. */
  datatype Call =
    | Shutdown(teardown: Teardown)
    | Rebind(receipts: Calls, unbind: Calls, bind: Calls)
    | Start(teardown: Teardown, supported: bool, register: Calls)

  datatype Teardown = Teardown(receipts: Calls, messages: Calls, reconnects: Calls, target: Calls, unbind: Calls)

  datatype Calls = Silent | Then(call: Call, rest: Calls)

  const SILENT_TEARDOWN := Teardown(Silent, Silent, Silent, Silent, Silent)

  /** A second start re-enters while the first stops the target subscription of the session before it. */
  const NESTED_START := Then(Start(SILENT_TEARDOWN, true, Silent), Silent)
  const NESTED_TEARDOWN := Teardown(Silent, Silent, Silent, NESTED_START, Silent)

  /** Somewhere among the calls, or what re-enters them, a session starts. */
  predicate Starts(calls: Calls)
  {
    match calls
    case Silent => false
    case Then(call, rest) => CallStarts(call) || Starts(rest)
  }

  predicate CallStarts(call: Call)
  {
    match call
    case Shutdown(t) => TeardownStarts(t)
    case Rebind(receipts, unbind, bind) => Starts(receipts) || Starts(unbind) || Starts(bind)
    case Start(_, _, _) => true
  }

  predicate TeardownStarts(t: Teardown)
  {
    Starts(t.receipts) || Starts(t.messages) || Starts(t.reconnects) || Starts(t.target) || Starts(t.unbind)
  }

  /** No session start is re-entered by another while it releases the session before it. */
  predicate Tame(calls: Calls)
  {
    match calls
    case Silent => true
    case Then(call, rest) => CallTame(call) && Tame(rest)
  }

  predicate CallTame(call: Call)
  {
    match call
    case Shutdown(t) => TeardownTame(t)
    case Rebind(receipts, unbind, bind) => Tame(receipts) && Tame(unbind) && Tame(bind)
    case Start(t, _, register) => TeardownTame(t) && !TeardownStarts(t) && Tame(register)
  }

  predicate TeardownTame(t: Teardown)
  {
    Tame(t.receipts) && Tame(t.messages) && Tame(t.reconnects) && Tame(t.target) && Tame(t.unbind)
  }

  // ---------- Which calls are made, and whether they end the lifecycle ----------

  /** What decides which calls out a rebind makes: a registration, receipts that are kept, and a bound target. */
  datatype Flags = Flags(registered: bool, receipts: bool, bound: bool)

  function FlagsOf(s: State): Flags
  {
    Flags(s.adapter.Some?, s.stopReceipts.Some?, s.binding.Some?)
  }

  /** The calls reach a shutdown or a start, or they end with these flags. */
  datatype Course = Ends | Goes(flags: Flags)

  function CallsCourse(calls: Calls, f: Flags): Course
    decreases calls, 0
  {
    match calls
    case Silent => Goes(f)
    case Then(call, rest) =>
      match CallCourse(call, f)
      case Ends => Ends
      case Goes(g) => CallsCourse(rest, g)
  }

  function CallCourse(call: Call, f: Flags): Course
    decreases call, 1
  {
    match call
    case Rebind(receipts, unbind, bind) =>
      if !f.registered then Goes(f)
      else
        (match WithdrawCourse(call, f)
         case Ends => Ends
         case Goes(g) => CallsCourse(bind, g))
    case _ => Ends
  }

  function WithdrawCourse(call: Call, f: Flags): Course
    requires call.Rebind?
    decreases call, 0
  {
    match (if f.receipts then CallsCourse(call.receipts, f) else Goes(f))
    case Ends => Ends
    case Goes(g) =>
      if g.bound then CallsCourse(call.unbind, g.(receipts := false, bound := false)) else Goes(g.(receipts := false))
  }

  /** From `a` to `b` the course was taken: the lifecycle ended in it, or goes on with its flags. */
  predicate Follows(a: State, b: State, course: Course)
  {
    match course
    case Ends => b.lifecycle > a.lifecycle
    case Goes(flags) => b.lifecycle == a.lifecycle && FlagsOf(b) == flags
  }

  lemma EndingCall(call: Call, f: Flags)
    requires !call.Rebind?
    ensures CallCourse(call, f) == Ends
  {
  }

  lemma SilentGoes(f: Flags)
    ensures CallsCourse(Silent, f) == Goes(f)
  {
  }

  /** A withdrawal: `b` is the state after the receipts were stopped, `d` the one at its end. */
  lemma WithdrawFollows(a: State, b: State, d: State, call: Call)
    requires call.Rebind?
    requires var f := FlagsOf(a);
      Follows(a, b, if f.receipts then CallsCourse(call.receipts, f) else Goes(f))
    requires d.lifecycle >= b.lifecycle
    requires if b.binding.Some? then Follows(Unbound(b), d, CallsCourse(call.unbind, FlagsOf(Unbound(b))))
             else b.lifecycle == d.lifecycle && FlagsOf(d) == FlagsOf(Unbound(b))
    ensures Follows(a, d, WithdrawCourse(call, FlagsOf(a)))
  {
    hide CallsCourse;
  }

  /** The calls mention no shutdown and no start, at any depth. */
  predicate Endless(calls: Calls)
  {
    match calls
    case Silent => true
    case Then(call, rest) =>
      match call
      case Rebind(receipts, unbind, bind) => Endless(receipts) && Endless(unbind) && Endless(bind) && Endless(rest)
      case _ => false
  }

  /** Without a shutdown or a start among them, the calls end no lifecycle. */
  lemma {:induction false} EndlessGoes(calls: Calls, f: Flags)
    requires Endless(calls)
    ensures CallsCourse(calls, f).Goes?
  {
    match calls
    case Silent =>
    case Then(Rebind(receipts, unbind, bind), rest) =>
      EndlessGoes(receipts, f);
      var g := if f.receipts then CallsCourse(receipts, f).flags else f;
      EndlessGoes(unbind, g.(receipts := false, bound := false));
      var h := WithdrawCourse(calls.call, f).flags;
      EndlessGoes(bind, h);
      EndlessGoes(rest, if f.registered then CallsCourse(bind, h).flags else f);
  }

  // ---------- What re-entry may do ----------

  function Stopped(live: set<nat>, stop: Option<nat>): set<nat>
  {
    if stop.Some? then live - {stop.value} else live
  }

  /** The subscriptions of a lifecycle are stopped when it ends and not touched before. */
  predicate Subscriptions(a: State, b: State)
  {
    if b.lifecycle == a.lifecycle then
      && b.adapter == a.adapter && b.stopMessages == a.stopMessages && b.stopReconnects == a.stopReconnects
      && b.stopTarget == a.stopTarget
      && b.host.messages == a.host.messages && b.host.reconnects == a.host.reconnects && b.host.targets == a.host.targets
    else
      && b.adapter.None? && b.stopMessages.None? && b.stopReconnects.None? && b.stopTarget.None?
      && b.host.messages == Stopped(a.host.messages, a.stopMessages)
      && b.host.reconnects == Stopped(a.host.reconnects, a.stopReconnects)
      && b.host.targets == Stopped(a.host.targets, a.stopTarget)
  }

  /** A new operation withdraws the target and its receipts; without one nothing happens. */
  predicate Receipts(a: State, b: State)
  {
    if b.operation == a.operation then b == a
    else
      && b.binding.None? && b.host.published.None? && b.stopReceipts.None?
      && b.host.receipts == StoppedReceipts(a.host.receipts, a.stopReceipts)
  }

  function StoppedReceipts(live: map<nat, Binding>, stop: Option<nat>): map<nat, Binding>
  {
    if stop.Some? then live - {stop.value} else live
  }

  /** Only a session start adds a registration; a rebind adds a binding that no start waits for. */
  predicate Continuations(a: State, b: State)
  {
    && a.host.pending <= b.host.pending && a.host.sessions <= b.host.sessions && a.host.nextId <= b.host.nextId
    && (a.host.shared ==> b.host.shared) && b.host.leaked == a.host.leaked
    && (forall p :: p in b.host.pending && p !in a.host.pending ==>
          StartOf(p).None? || (p.Registering? && p.lifecycle > a.lifecycle))
    && (b.host.sessions == a.host.sessions ==> forall p :: p in b.host.pending && p.Registering? ==> p in a.host.pending)
  }

  /** What a synchronous call into the adapter can do: tear down, never publish or subscribe. */
  predicate TearsDown(a: State, b: State)
  {
    && a.lifecycle <= b.lifecycle && a.operation <= b.operation && b.host.publications == a.host.publications
    && Receipts(a, b) && Subscriptions(a, b) && Continuations(a, b)
  }

  /** The start that a continuation belongs to, by its lifecycle. */
  function StartOf(p: Pending): Option<nat>
  {
    match p
    case Registering(_, lifecycle) => Some(lifecycle)
    case Attaching(_, _, starting) => starting
    case Starting(_, lifecycle) => Some(lifecycle)
  }

  predicate Below(ids: set<nat>, limit: nat)
  {
    forall i :: i in ids ==> i < limit
  }

  /** At most one continuation belongs to a start of the current lifecycle. */
  predicate Solo(s: State)
  {
    forall p :: p in s.host.pending && StartOf(p) == Some(s.lifecycle) ==>
      && (p.Registering? ==> s.adapter.None?)
      && forall q :: q in s.host.pending && StartOf(q) == Some(s.lifecycle) ==> q == p
  }

  /** A start of the current lifecycle, other than `p`, waits for its registration. */
  predicate Doubled(s: State, p: Option<Pending>)
  {
    exists q :: q in s.host.pending && q.Registering? && q.lifecycle == s.lifecycle && p != Some(q)
  }

  /** What a start under way is still to set is not set. */
  predicate Spare(s: State)
  {
    forall p :: p in s.host.pending && StartOf(p) == Some(s.lifecycle) ==> Unset(s, p.Registering?)
  }

  predicate Unset(s: State, registering: bool)
  {
    s.stopMessages.None? && s.stopReconnects.None? && (registering ==> s.stopTarget.None?)
  }

  /** A continuation of this start may be left to wait. */
  predicate Vacant(s: State, start: Option<nat>, registering: bool)
  {
    start == Some(s.lifecycle) ==>
      && (registering ==> s.adapter.None?) && (s.host.leaked || Unset(s, registering))
      && forall q :: q in s.host.pending ==> StartOf(q) != Some(s.lifecycle)
  }

  /**
   * A target that the client sees is also bound. A continuation belongs to a lifecycle seen so far,
   * and once it has registered, the adapter lasts as long as the lifecycle.
   */
  predicate Held(s: State)
  {
    && (s.host.published.Some? ==> s.binding.Some?)
    && (forall p :: p in s.host.pending ==> p.ticket < s.host.nextId)
    && (forall p :: p in s.host.pending && StartOf(p).Some? ==>
          StartOf(p).value <= s.lifecycle && (StartOf(p).value == s.lifecycle && !p.Registering? ==> s.adapter.Some?))
    && Below(s.host.messages, s.host.nextId) && Below(s.host.reconnects, s.host.nextId)
    && Below(s.host.targets, s.host.nextId)
    && (s.host.shared || (Solo(s) && (s.host.leaked || Spare(s))))
  }

  lemma TearsDownTwice(a: State, b: State, c: State)
    requires TearsDown(a, b) && TearsDown(b, c)
    ensures TearsDown(a, c)
  {
  }

  // ---------- In the middle of a teardown ----------

  predicate Stopping(stopA: Option<nat>, liveA: set<nat>, stopB: Option<nat>, liveB: set<nat>, done: bool)
  {
    && (stopB == stopA || stopB.None?)
    && (liveB == Stopped(liveA, stopA) || (liveB == liveA && !done && stopB == stopA))
  }

  /** The target is still bound and its receipts perhaps live, or all of it was withdrawn by a re-entry. */
  predicate Withdrawing(a: State, b: State, done: bool)
  {
    && b.operation > a.operation && b.lifecycle >= a.lifecycle
    && b.host.publications == a.host.publications && Continuations(a, b)
    && (b.stopReceipts == a.stopReceipts || b.stopReceipts.None?)
    && (|| b.host.receipts == StoppedReceipts(a.host.receipts, a.stopReceipts)
        || (b.host.receipts == a.host.receipts && !done && b.stopReceipts == a.stopReceipts))
    && ((b.binding == a.binding && b.host.published == a.host.published) || (b.binding.None? && b.host.published.None?))
  }

  /** A release that has called `n` of its four stop functions. */
  predicate Releasing(a: State, b: State, n: nat)
  {
    && Withdrawing(a, b, n >= 1) && b.lifecycle > a.lifecycle
    && Stopping(a.stopMessages, a.host.messages, b.stopMessages, b.host.messages, n >= 2)
    && Stopping(a.stopReconnects, a.host.reconnects, b.stopReconnects, b.host.reconnects, n >= 3)
    && Stopping(a.stopTarget, a.host.targets, b.stopTarget, b.host.targets, n >= 4)
  }

  lemma WithdrawingGoesOn(a: State, b: State, c: State, done: bool)
    requires Withdrawing(a, b, done) && TearsDown(b, c)
    ensures Withdrawing(a, c, done)
  {
    hide Subscriptions;
  }

  lemma ReleasingGoesOn(a: State, b: State, c: State, n: nat)
    requires Releasing(a, b, n) && TearsDown(b, c)
    ensures Releasing(a, c, n)
  {
    WithdrawingGoesOn(a, b, c, n >= 1);
    hide Withdrawing, Receipts, Continuations;
  }

  lemma StillWithdrawing(a: State, b: State, c: State)
    requires c == b.(host := b.host.(messages := c.host.messages, reconnects := c.host.reconnects,
                                     targets := c.host.targets))
    ensures Withdrawing(a, c, true) == Withdrawing(a, b, true)
  {
  }

  lemma LaterOperation(a: State, b: State)
    requires TearsDown(a, b)
    ensures a.lifecycle <= b.lifecycle && a.operation <= b.operation && a.host.sessions <= b.host.sessions
    ensures a.host.pending <= b.host.pending && b.host.publications == a.host.publications
    ensures b.host.leaked == a.host.leaked && (b.lifecycle > a.lifecycle ==> b.operation > a.operation)
  {
  }

  lemma SubscriptionsGoOn(a: State, b: State, c: State)
    requires Subscriptions(a, b) && TearsDown(b, c) && a.lifecycle <= b.lifecycle
    ensures Subscriptions(a, c)
  {
  }

  /** Nothing is left of the target of the operation that was withdrawn. */
  function Unbound(s: State): State
  {
    s.(stopReceipts := None, binding := None, host := s.host.(published := None))
  }

  lemma WithdrawBegins(a: State, b: State)
    requires b == a.(operation := a.operation + 1) && Held(a)
    ensures Withdrawing(a, b, false) && Subscriptions(a, b) && Held(b)
  {
  }

  lemma WithdrawnAll(a: State, b: State)
    requires Withdrawing(a, b, true) && Subscriptions(a, b) && Held(b)
    ensures TearsDown(a, Unbound(b)) && Held(Unbound(b)) && b.operation > a.operation
  {
  }

  /** Nothing is left of the subscriptions and the target of the lifecycle that was released. */
  function Cleared(s: State): State
  {
    s.(stopReceipts := None, stopMessages := None, stopReconnects := None, stopTarget := None,
       adapter := None, binding := None, host := s.host.(published := None))
  }

  lemma ReleasedAll(a: State, b: State)
    requires Releasing(a, b, 4)
    ensures TearsDown(a, Cleared(b)) && b.lifecycle > a.lifecycle && b.operation > a.operation
  {
  }

  lemma ReleaseBegins(a: State, b: State)
    requires b == a.(lifecycle := a.lifecycle + 1, operation := a.operation + 1) && Held(a)
    ensures Releasing(a, b, 0) && Withdrawing(a, b, false) && Held(b)
  {
  }

  lemma HeldBound(s: State)
    requires Held(s)
    ensures s.binding.None? ==> s.host.published.None?
  {
  }

  lemma ClearedHeld(a: State, b: State)
    requires Releasing(a, b, 4) && Held(a) && Held(b)
    ensures Held(Cleared(b))
  {
  }

  // ---------- Between calls ----------

  function Ids(stop: Option<nat>): set<nat>
  {
    if stop.Some? then {stop.value} else {}
  }

  /** The target was the newest operation's, of the live registration, and had the only live receipts. */
  predicate Proper(p: Publication)
  {
    && p.binding == Binding(p.binding.adapter, p.lifecycle, p.operation) && p.adapter == Some(p.binding.adapter)
    && p.receipts == map[p.receipt := p.binding]
  }

  /** Nothing was published, or the target of this one binding. */
  predicate PublishesAtMost(before: seq<Publication>, after: seq<Publication>, b: Binding)
  {
    after == before || (|after| == |before| + 1 && before <= after && after[|before|].binding == b)
  }

  lemma NoneIsAtMost(publications: seq<Publication>, b: Binding)
    ensures PublishesAtMost(publications, publications, b)
  {
  }

  predicate Current(s: State, b: Binding)
  {
    s.adapter == Some(b.adapter) && s.lifecycle == b.lifecycle && s.operation == b.operation
  }

  /** What the client sees is bound and has the only live receipts; seeing nothing, it has none. */
  predicate Shown(s: State)
  {
    match s.host.published
    case Some(b) =>
      && s.binding == Some(b) && b.operation <= s.operation && s.adapter.Some?
      && s.stopReceipts.Some? && s.host.receipts == map[s.stopReceipts.value := b]
    case None => s.host.receipts == map[]
  }

  /** The client sees a target of an earlier operation. */
  predicate Stale(s: State)
  {
    s.host.published.Some? && !Current(s, s.host.published.value)
  }

  /** Every subscription kept lives. */
  predicate Rooted(s: State)
  {
    && Ids(s.stopMessages) <= s.host.messages && Ids(s.stopReconnects) <= s.host.reconnects
    && Ids(s.stopTarget) <= s.host.targets
  }

  /** Every receipt subscription that lives is the one kept, and every target was published properly. */
  predicate Quiet(s: State)
  {
    && Held(s) && Shown(s) && Rooted(s)
    && (s.host.shared || !Stale(s))
    && (forall i :: 0 <= i < |s.host.publications| ==> Proper(s.host.publications[i]))
  }

  /** A subscription lives that is not kept, so that nothing can stop it any more. */
  predicate Orphaned(s: State)
  {
    || !(s.host.messages <= Ids(s.stopMessages)) || !(s.host.reconnects <= Ids(s.stopReconnects))
    || !(s.host.targets <= Ids(s.stopTarget))
  }

  /** A subscription is kept without a registration; the next release stops it. */
  predicate Hanging(s: State)
  {
    s.adapter.None? && (s.stopMessages.Some? || s.stopReconnects.Some? || s.stopTarget.Some?)
  }

  /** Every other subscription that lives is the one kept, and none lives without a registration. */
  predicate Clean(s: State)
  {
    && s.host.messages <= Ids(s.stopMessages) && s.host.reconnects <= Ids(s.stopReconnects)
    && s.host.targets <= Ids(s.stopTarget)
    && (s.adapter.None? ==> s.host.messages == {} && s.host.reconnects == {} && s.host.targets == {})
  }

  lemma CleanExactly(s: State)
    requires Quiet(s)
    ensures Clean(s) <==> !Orphaned(s) && !Hanging(s)
  {
  }

  /** The session was shut down, no start is under way, and the client sees and receives nothing. */
  predicate Down(s: State)
  {
    && s.adapter.None? && s.host.published.None? && s.host.receipts == map[]
    && s.stopMessages.None? && s.stopReconnects.None? && s.stopTarget.None?
    && forall p :: p in s.host.pending && p.Registering? ==> p.lifecycle < s.lifecycle
  }

  predicate SameSubscriptions(a: State, b: State)
  {
    && b.host.messages == a.host.messages && b.host.reconnects == a.host.reconnects && b.host.targets == a.host.targets
  }

  /** Down stays down while no session starts: nothing is published, and no subscription is made or stopped. */
  predicate StaysDown(a: State, b: State)
  {
    Down(a) && b.host.sessions == a.host.sessions ==>
      Down(b) && b.host.publications == a.host.publications && SameSubscriptions(a, b)
  }

  /** What every step that makes no subscription keeps: the target is sound, nothing leaks, down stays down. */
  predicate Keeps(a: State, b: State)
  {
    && Quiet(b) && a.host.sessions <= b.host.sessions && (a.host.shared ==> b.host.shared)
    && b.host.leaked == a.host.leaked && a.lifecycle <= b.lifecycle
    && Subscriptions(a, b) && StaysDown(a, b)
  }

  /** Orphans stay, and what hangs hangs until the next release. */
  lemma SubscriptionsCount(a: State, b: State)
    requires Subscriptions(a, b) && a.lifecycle <= b.lifecycle
    ensures Orphaned(b) <==> Orphaned(a)
    ensures Hanging(b) <==> Hanging(a) && b.lifecycle == a.lifecycle
    ensures Clean(a) ==> Clean(b)
  {
  }

  lemma KeepsTwice(a: State, b: State, c: State)
    requires Keeps(a, b) && Keeps(b, c)
    ensures Keeps(a, c)
  {
    hide Quiet, Down;
  }

  lemma TearsDownKeeps(a: State, b: State)
    requires Quiet(a) && Held(b) && TearsDown(a, b)
    ensures Keeps(a, b)
  {
    QuietStays(a, b);
    if Down(a) && b.host.sessions == a.host.sessions {
      DownStays(a, b);
    }
    hide Quiet, Down, Receipts;
  }

  /** The continuation is no longer waiting. */
  function Resumed(s: State, p: Pending): State
  {
    s.(host := s.host.(pending := s.host.pending - {p}))
  }

  lemma ResumedKeeps(s: State, p: Pending)
    requires Quiet(s) && p in s.host.pending
    ensures Keeps(s, Resumed(s, p)) && Held(Resumed(s, p))
    ensures s.host.shared || Vacant(Resumed(s, p), StartOf(p), p.Registering?)
    ensures StartOf(p).Some? ==>
      StartOf(p).value <= s.lifecycle && (StartOf(p).value == s.lifecycle && !p.Registering? ==> s.adapter.Some?)
  {
  }

  lemma AwaitKeeps(s: State, p: Pending)
    requires Quiet(s) && Held(Awaiting(s, p)) && !p.Registering?
    ensures Keeps(s, Awaiting(s, p))
  {
    hide Held;
  }

  lemma AttachedKeeps(a: State, b: State)
    requires a.adapter.Some? && Quiet(b) && a.lifecycle <= b.lifecycle && Subscriptions(a, b) && Continuations(a, b)
    ensures Keeps(a, b)
  {
    hide Quiet;
  }

  lemma VacantSince(a: State, b: State, start: Option<nat>)
    requires Subscriptions(a, b) && Continuations(a, b) && a.lifecycle <= b.lifecycle
    requires start.Some? ==> start.value <= a.lifecycle && (start.value == a.lifecycle ==> a.adapter.Some?)
    ensures !a.host.shared && Vacant(a, start, false) ==> Vacant(b, start, false)
    ensures a.host.shared ==> b.host.shared
    ensures start.Some? ==> start.value <= b.lifecycle && (start.value == b.lifecycle ==> b.adapter.Some?)
  {
  }

  /**
   * What a step that makes subscriptions keeps. Unless starts share a lifecycle, it leaves a subscription
   * without a registration exactly when the lifecycle ended while the subscription was being made.
   */
  predicate Registers(a: State, b: State)
  {
    && Quiet(b) && a.host.sessions <= b.host.sessions && (a.host.shared ==> b.host.shared)
    && (a.host.leaked ==> b.host.leaked)
    && (!b.host.shared && !a.host.leaked && Clean(a) ==> (Clean(b) <==> !b.host.leaked))
    && StaysDown(a, b) && a.lifecycle <= b.lifecycle
    && (b.lifecycle == a.lifecycle && a.adapter.Some? ==> b.adapter.Some?)
  }

  function WithMessages(s: State): State
  {
    s.(host := s.host.(messages := s.host.messages + {s.host.nextId}, nextId := s.host.nextId + 1))
  }

  function KeepMessages(s: State, id: nat, start: nat): State
  {
    s.(stopMessages := Some(id), host := s.host.(leaked := s.host.leaked || s.lifecycle != start))
  }

  function WithReconnects(s: State): State
  {
    s.(host := s.host.(reconnects := s.host.reconnects + {s.host.nextId}, nextId := s.host.nextId + 1))
  }

  function KeepReconnects(s: State, id: nat, start: nat): State
  {
    s.(stopReconnects := Some(id), host := s.host.(leaked := s.host.leaked || s.lifecycle != start))
  }

  function WithTarget(s: State): State
  {
    s.(host := s.host.(targets := s.host.targets + {s.host.nextId}, nextId := s.host.nextId + 1))
  }

  function KeepTarget(s: State, id: nat, start: nat): State
  {
    s.(stopTarget := Some(id), host := s.host.(leaked := s.host.leaked || s.lifecycle != start))
  }

  lemma WithIsQuiet(s: State)
    requires Quiet(s)
    ensures Quiet(WithMessages(s)) && Quiet(WithReconnects(s)) && Quiet(WithTarget(s))
  {
  }

  /** No start of this lifecycle is under way besides the one that goes on here. */
  predicate Alone(s: State, start: nat)
  {
    start <= s.lifecycle
    && (s.host.shared || start != s.lifecycle || forall q :: q in s.host.pending ==> StartOf(q) != Some(start))
  }

  lemma AloneStays(a: State, b: State, start: nat)
    requires TearsDown(a, b) && Alone(a, start)
    ensures Alone(b, start)
  {
  }

  lemma KeepIsQuiet(s: State, id: nat, start: nat)
    requires Quiet(s) && Alone(s, start)
    ensures id in s.host.messages ==> Quiet(KeepMessages(s, id, start))
    ensures id in s.host.reconnects ==> Quiet(KeepReconnects(s, id, start))
    ensures id in s.host.targets ==> Quiet(KeepTarget(s, id, start))
    ensures Alone(KeepMessages(s, id, start), start) && Alone(KeepTarget(s, id, start), start)
  {
  }

  /** A new subscription lives on whatever re-enters, and what it replaces is left behind, unless released. */
  lemma MessagesKept(a: State, m: State, start: nat)
    requires Quiet(a) && TearsDown(WithMessages(a), m)
    ensures a.host.nextId in m.host.messages
    ensures var c := KeepMessages(m, a.host.nextId, start);
      && (Orphaned(c) <==> Orphaned(a) || (m.lifecycle == a.lifecycle && a.stopMessages.Some?))
      && (m.lifecycle > a.lifecycle ==> Hanging(c) && c.stopReconnects.None?)
      && (m.lifecycle == a.lifecycle ==> c.stopReconnects == a.stopReconnects)
  {
    assert a.host.nextId !in a.host.messages;
    hide Held, Continuations, Receipts;
  }

  lemma ReconnectsKept(a: State, m: State, start: nat)
    requires Quiet(a) && TearsDown(WithReconnects(a), m)
    ensures a.host.nextId in m.host.reconnects
    ensures var c := KeepReconnects(m, a.host.nextId, start);
      && (Orphaned(c) <==> Orphaned(a) || (m.lifecycle == a.lifecycle && a.stopReconnects.Some?))
      && (m.lifecycle > a.lifecycle || Hanging(a) ==> Hanging(c))
  {
    assert a.host.nextId !in a.host.reconnects;
    hide Held, Continuations, Receipts;
  }

  lemma TargetKept(a: State, m: State, start: nat)
    requires Quiet(a) && TearsDown(WithTarget(a), m)
    ensures a.host.nextId in m.host.targets
    ensures var c := KeepTarget(m, a.host.nextId, start);
      && (Orphaned(c) <==> Orphaned(a) || (m.lifecycle == a.lifecycle && a.stopTarget.Some?))
      && (m.lifecycle > a.lifecycle ==> Hanging(c))
  {
    assert a.host.nextId !in a.host.targets;
    hide Held, Continuations, Receipts;
  }

  /** A target that is bound stays shown as long as no call withdraws it. */
  predicate KeepsBound(course: Course)
  {
    course.Goes? && course.flags.bound
  }

  lemma ShownFollows(a: State, b: State, course: Course)
    requires TearsDown(a, b) && Follows(a, b, course) && (a.host.published.Some? ==> a.binding.Some?)
    ensures b.host.published.Some? <==> a.host.published.Some? && KeepsBound(course)
    ensures b.host.published.Some? ==> b == a
    ensures Stale(b) <==> Stale(a) && KeepsBound(course)
  {
    hide Subscriptions, Continuations;
  }

  /** The two subscriptions of a start: `m` and `n` are the states after each was made, before it is kept. */
  lemma StartRegisters(a: State, m: State, n: State)
    requires !n.host.shared && !a.host.leaked && Clean(a) && a.adapter.Some? && Unset(a, false)
    requires TearsDown(WithMessages(a), m)
    requires var b := KeepMessages(m, a.host.nextId, a.lifecycle); TearsDown(WithReconnects(b), n)
    ensures var c := KeepReconnects(n, m.host.nextId, a.lifecycle);
      Clean(c) <==> !c.host.leaked
  {
    hide Receipts;
    var b := KeepMessages(m, a.host.nextId, a.lifecycle);
    assert m.lifecycle == a.lifecycle ==> b.host.messages == {a.host.nextId};
    assert m.host.nextId in WithReconnects(b).host.reconnects;
    assert b.stopReconnects.None?;
    if n.lifecycle > a.lifecycle {
      assert n.adapter.None? && m.host.nextId in n.host.reconnects;
    }
  }

  /** What holds, since state `a`, while a current binding is being attached. */
  predicate Since(a: State, b: State)
  {
    && Held(b) && a.lifecycle <= b.lifecycle && a.operation <= b.operation
    && Subscriptions(a, b) && Continuations(a, b) && b.host.publications == a.host.publications
    && (if b.operation == a.operation then b.lifecycle == a.lifecycle else b.host.published.None?)
  }

  lemma SinceGoesOn(a: State, b: State, c: State)
    requires Since(a, b) && TearsDown(b, c) && Held(c)
    ensures Since(a, c)
    ensures b.host.receipts == map[] ==> c.host.receipts == map[]
    ensures b.stopReceipts.None? ==> c.stopReceipts.None? && c.host.receipts == b.host.receipts
    ensures c.operation == a.operation ==> c == b
  {
  }

  /** The receipts kept before are stopped. */
  function Quelled(s: State): State
  {
    s.(host := s.host.(receipts := StoppedReceipts(s.host.receipts, s.stopReceipts)))
  }

  lemma QuelledSince(a: State)
    requires Quiet(a)
    ensures Since(a, Quelled(a)) && Quelled(a).host.receipts == map[]
    ensures a.stopReceipts.None? ==> Quelled(a) == a
  {
    assert a.host.receipts.Keys <= Ids(a.stopReceipts);
  }

  function Subscribed(s: State, b: Binding): State
  {
    s.(stopReceipts := None, binding := Some(b),
       host := s.host.(receipts := s.host.receipts[s.host.nextId := b], nextId := s.host.nextId + 1))
  }

  lemma SubscribedSince(a: State, s: State, b: Binding)
    requires Since(a, s) && s.host.receipts == map[]
    ensures Since(a, Subscribed(s, b)) && Subscribed(s, b).host.receipts == map[s.host.nextId := b]
  {
  }

  /** The binding went out of date while its snapshot was delivered: its receipts are stopped again. */
  function Unsubscribed(s: State, id: nat): State
  {
    s.(host := s.host.(receipts := s.host.receipts - {id}))
  }

  lemma UnsubscribedIsQuiet(a: State, s: State, b: Binding, id: nat)
    requires Quiet(a) && Current(a, b) && Since(a, s) && s.stopReceipts.None? && s.host.receipts == map[id := b]
    requires !Current(s, b)
    ensures Quiet(Unsubscribed(s, id)) && Since(a, Unsubscribed(s, id))
  {
    assert Unsubscribed(s, id).host.receipts == map[];
  }

  function Published(s: State, b: Binding, id: nat): State
  {
    s.(stopReceipts := Some(id),
       host := s.host.(published := Some(b), publications := s.host.publications
                       + [Publication(b, s.adapter, s.lifecycle, s.operation, id, s.host.receipts)]))
  }

  lemma PublishedIsQuiet(a: State, s: State, b: Binding, id: nat)
    requires Quiet(a) && Since(a, s) && s.host.receipts == map[id := b] && s.binding == Some(b)
    requires Current(s, b)
    ensures Quiet(Published(s, b, id))
    ensures Subscriptions(a, Published(s, b, id)) && Continuations(a, Published(s, b, id))
  {
  }

  lemma ContinuationsGoOn(a: State, b: State, c: State)
    requires Continuations(a, b) && TearsDown(b, c) && a.lifecycle <= b.lifecycle
    ensures Continuations(a, c)
  {
  }

  lemma QuietStays(a: State, b: State)
    requires Quiet(a) && Held(b) && TearsDown(a, b)
    ensures Quiet(b)
  {
    hide Held, Continuations;
  }

  lemma CleanStays(a: State, b: State)
    requires Clean(a) && Subscriptions(a, b)
    ensures Clean(b)
  {
  }

  lemma DownStays(a: State, b: State)
    requires Down(a) && TearsDown(a, b) && b.host.sessions == a.host.sessions
    ensures Down(b) && b.host.publications == a.host.publications
  {
  }

  lemma ReleasedIsDown(a: State, b: State)
    requires Quiet(a) && TearsDown(a, b) && b.lifecycle > a.lifecycle && b.host.sessions == a.host.sessions
    ensures Down(b)
  {
  }

  // ---------- Steps of the proofs ----------

  /** What the host hands the extension, with the re-entries of each call out of it. */
  datatype Step =
    | OnShutdown(teardown: Teardown)
    | OnBranchChange(receipts: Calls, unbind: Calls, bind: Calls)
    | OnStart(teardown: Teardown, supported: bool, register: Calls)
    | OnRegistered(p: Pending, ok: bool, watches: bool, watch: Calls, bind: Calls, teardown: Teardown, report: Calls)
    | OnBound(p: Pending, ok: bool, stop: Calls, snapshot: Calls, publish: Calls, teardown: Teardown, report: Calls)
    | OnResumed(p: Pending, messages: Calls, reconnects: Calls)

  /** No session start of the step is re-entered by another while it releases the session before it. */
  predicate StepTame(step: Step)
  {
    match step
    case OnShutdown(t) => TeardownTame(t)
    case OnBranchChange(receipts, unbind, bind) => Tame(receipts) && Tame(unbind) && Tame(bind)
    case OnStart(t, _, register) => TeardownTame(t) && !TeardownStarts(t) && Tame(register)
    case OnRegistered(_, _, _, watch, bind, t, report) => Tame(watch) && Tame(bind) && TeardownTame(t) && Tame(report)
    case OnBound(_, _, stop, snapshot, publish, t, report) =>
      Tame(stop) && Tame(snapshot) && Tame(publish) && TeardownTame(t) && Tame(report)
    case OnResumed(_, messages, reconnects) => Tame(messages) && Tame(reconnects)
  }

  /** The lifecycle ends while the subscription to messages or to reconnects is made. */
  predicate StartEnds(f: Flags, messages: Calls, reconnects: Calls)
  {
    match CallsCourse(messages, f)
    case Ends => true
    case Goes(g) => CallsCourse(reconnects, g).Ends?
  }

  /**
   * The step makes a subscription for the lifecycle it was called in, and among the calls that re-enter
   * while it is made a shutdown or a start is reached.
   */
  predicate StepEnds(s: State, step: Step)
  {
    match step
    case OnRegistered(p, ok, watches, watch, _, _, _) =>
      && p in s.host.pending && p.Registering? && p.lifecycle == s.lifecycle && ok && watches
      && CallsCourse(watch, FlagsOf(s).(registered := true)).Ends?
    case OnResumed(p, messages, reconnects) =>
      p in s.host.pending && p.Starting? && p.lifecycle == s.lifecycle && StartEnds(FlagsOf(s), messages, reconnects)
    case _ => false
  }

  /** No call that re-enters a subscription mentions a shutdown or a start. */
  predicate StepEndless(step: Step)
  {
    match step
    case OnRegistered(_, _, _, watch, _, _, _) => Endless(watch)
    case OnResumed(_, messages, reconnects) => Endless(messages) && Endless(reconnects)
    case _ => true
  }

  lemma EndlessEndsNothing(s: State, step: Step)
    requires StepEndless(step)
    ensures !StepEnds(s, step)
  {
    match step
    case OnRegistered(_, _, _, watch, _, _, _) => EndlessGoes(watch, FlagsOf(s).(registered := true));
    case OnResumed(_, messages, reconnects) =>
      EndlessGoes(messages, FlagsOf(s));
      EndlessGoes(reconnects, CallsCourse(messages, FlagsOf(s)).flags);
    case _ =>
  }

  /**
   * The step keeps a new subscription in the place of one that is still kept, and no call that re-enters
   * while it is made releases that one. A registration on a host that reports no target resets drops it.
   */
  predicate StepOverwrites(s: State, step: Step)
  {
    match step
    case OnRegistered(p, ok, watches, watch, _, _, _) =>
      && p in s.host.pending && p.Registering? && p.lifecycle == s.lifecycle && ok && s.stopTarget.Some?
      && (watches ==> CallsCourse(watch, FlagsOf(s).(registered := true)).Goes?)
    case OnResumed(p, messages, reconnects) =>
      && p in s.host.pending && p.Starting? && p.lifecycle == s.lifecycle
      && (match CallsCourse(messages, FlagsOf(s))
          case Ends => false
          case Goes(g) => s.stopMessages.Some? || (s.stopReconnects.Some? && CallsCourse(reconnects, g).Goes?))
    case _ => false
  }

  /** What becomes of a bound target while a registration is watched and bound. */
  function RegisteredCourse(s: State, watches: bool, watch: Calls, bind: Calls): Course
  {
    var f := FlagsOf(s).(registered := true);
    match (if watches then CallsCourse(watch, f) else Goes(f))
    case Ends => Ends
    case Goes(g) => CallsCourse(bind, g)
  }

  function ResumedCourse(s: State, messages: Calls, reconnects: Calls): Course
  {
    match CallsCourse(messages, FlagsOf(s))
    case Ends => Ends
    case Goes(g) => CallsCourse(reconnects, g)
  }

  /** A current registration arrives while a target is shown, and no call that re-enters withdraws it. */
  predicate StepStales(s: State, step: Step)
  {
    match step
    case OnRegistered(p, ok, watches, watch, bind, _, _) =>
      && p in s.host.pending && p.Registering? && p.lifecycle == s.lifecycle && ok && s.host.published.Some?
      && KeepsBound(RegisteredCourse(s, watches, watch, bind))
    case _ => false
  }

  /** The step withdraws the target that is shown, or publishes another one. */
  predicate StepClears(s: State, step: Step)
  {
    match step
    case OnShutdown(_) => true
    case OnStart(_, _, _) => true
    case OnBranchChange(_, _, _) => s.adapter.Some?
    case OnRegistered(p, ok, watches, watch, bind, _, _) =>
      && p in s.host.pending && p.Registering? && p.lifecycle == s.lifecycle
      && (!ok || !KeepsBound(RegisteredCourse(s, watches, watch, bind)))
    case OnBound(p, ok, _, _, _, _, report) =>
      && p in s.host.pending && p.Attaching? && Current(s, p.binding)
      && (ok || (match p.starting
                 case None => !KeepsBound(CallsCourse(report, FlagsOf(s)))
                 case Some(start) => start == s.lifecycle))
    case OnResumed(p, messages, reconnects) =>
      && p in s.host.pending && p.Starting? && p.lifecycle == s.lifecycle
      && !KeepsBound(ResumedCourse(s, messages, reconnects))
  }

  /**
   * From `a` to `b`, by the step: which subscriptions are left without anything to stop them, which are
   * kept without a registration, and whether the target shown is out of date.
   */
  predicate Accounts(a: State, b: State, step: Step)
  {
    && (Orphaned(b) <==> Orphaned(a) || StepOverwrites(a, step))
    && (Hanging(b) <==> StepEnds(a, step) || (Hanging(a) && b.lifecycle == a.lifecycle && b.adapter.None?))
    && (Stale(b) <==> StepStales(a, step) || (Stale(a) && !StepClears(a, step)))
  }

  /** A step that makes no subscription and brings no registration. */
  lemma KeepsAccounts(a: State, b: State, step: Step)
    requires Keeps(a, b) && !StepOverwrites(a, step) && !StepEnds(a, step) && !StepStales(a, step)
    requires Stale(b) <==> Stale(a) && !StepClears(a, step)
    ensures Accounts(a, b, step)
  {
    SubscriptionsCount(a, b);
    hide Quiet, StepOverwrites, StepEnds, StepStales, StepClears, Orphaned, Stale;
  }

  lemma QuietIsBound(s: State)
    requires Quiet(s)
    ensures s.host.published.Some? ==> s.binding.Some? && s.adapter.Some?
  {
  }

  /** A registration that reports no target resets leaves the subscription of another one behind. */
  lemma TargetDropped(a: State)
    requires Quiet(a)
    ensures var s := Adopted(a).(stopTarget := None);
      Orphaned(s) <==> Orphaned(a) || a.stopTarget.Some?
  {
  }

  lemma AdoptedSame(s: State)
    ensures Orphaned(Adopted(s)) == Orphaned(s) && FlagsOf(Adopted(s)) == FlagsOf(s).(registered := true)
  {
  }

  lemma ResumedSame(s: State, p: Pending)
    ensures Stale(Resumed(s, p)) == Stale(s) && FlagsOf(Resumed(s, p)) == FlagsOf(s)
    ensures Orphaned(Resumed(s, p)) == Orphaned(s) && Hanging(Resumed(s, p)) == Hanging(s)
  {
  }

  lemma AwaitingSame(s: State, p: Pending)
    ensures Stale(Awaiting(s, p)) == Stale(s) && FlagsOf(Awaiting(s, p)) == FlagsOf(s)
    ensures Orphaned(Awaiting(s, p)) == Orphaned(s) && Hanging(Awaiting(s, p)) == Hanging(s)
  {
  }

  /** No call binds a target. */
  lemma {:induction false} BoundBefore(calls: Calls, f: Flags)
    requires KeepsBound(CallsCourse(calls, f))
    ensures f.bound
    decreases calls
  {
    if calls.Then? {
      var call, g := calls.call, CallCourse(calls.call, f).flags;
      BoundBefore(calls.rest, g);
      if f.registered {
        var h := WithdrawCourse(call, f).flags;
        BoundBefore(call.bind, h);
        var k := if f.receipts then CallsCourse(call.receipts, f).flags else f;
        if k.bound {
          BoundBefore(call.unbind, k.(receipts := false, bound := false));
        }
      }
    }
  }

  /** The rest of a start, which was resumed in state `r`: `s` and `b` are the states after its two subscriptions. */
  lemma StartedAccounts(a: State, r: State, s: State, b: State, p: Pending, messages: Calls, reconnects: Calls)
    requires Quiet(a) && p in a.host.pending && p == Starting(p.ticket, a.lifecycle) && r == Resumed(a, p)
    requires var course := CallsCourse(messages, FlagsOf(r));
      && Follows(r, s, course) && (s.lifecycle == r.lifecycle ==> s.adapter == r.adapter)
      && (Orphaned(s) <==> Orphaned(r) || (course.Goes? && r.stopMessages.Some?))
      && (course.Ends? ==> Hanging(s) && s.stopReconnects.None?)
      && (course.Goes? ==> s.stopReconnects == r.stopReconnects)
      && (Stale(s) <==> Stale(r) && KeepsBound(course))
    requires var course := CallsCourse(reconnects, FlagsOf(s));
      && Follows(s, b, course) && (b.lifecycle == s.lifecycle ==> b.adapter == s.adapter)
      && (Orphaned(b) <==> Orphaned(s) || (course.Goes? && s.stopReconnects.Some?))
      && (course.Ends? || Hanging(s) ==> Hanging(b))
      && (Stale(b) <==> Stale(s) && KeepsBound(course))
    ensures Accounts(a, b, OnResumed(p, messages, reconnects))
  {
    ResumedSame(a, p);
    var step := OnResumed(p, messages, reconnects);
    var f, g := CallsCourse(messages, FlagsOf(r)), CallsCourse(reconnects, FlagsOf(s));
    assert a.adapter.Some? && !Hanging(a);
    assert StepEnds(a, step) <==> f.Ends? || g.Ends?;
    assert !StepEnds(a, step) ==> b.adapter.Some?;
    if f.Goes? && KeepsBound(g) {
      BoundBefore(reconnects, FlagsOf(s));
    }
    hide CallsCourse, Quiet, Stale, Orphaned, FlagsOf;
  }

  /** A registration that is watched, which leaves state `s`, and then bound, which leaves `left` to wait. */
  lemma RegisteredAccounts(a: State, s: State, mid: State, left: Pending, step: Step)
    requires Quiet(a) && Quiet(s) && step.OnRegistered? && step.ok
    requires step.p in a.host.pending && step.p == Registering(step.p.ticket, a.lifecycle)
    requires var f := FlagsOf(a).(registered := true);
             var course := if step.watches then CallsCourse(step.watch, f) else Goes(f);
      && Follows(a, s, course) && (course.Goes? ==> s.adapter.Some?)
      && (Orphaned(s) <==> Orphaned(a) || (course.Goes? && a.stopTarget.Some?))
      && (course.Ends? ==> Hanging(s))
      && (s.host.published.Some? <==> a.host.published.Some? && KeepsBound(course))
    requires var c := s.(operation := s.operation + 1);
             var f := FlagsOf(c);
             var course := if f.registered then CallsCourse(step.bind, f) else Goes(f);
      && TearsDown(c, mid) && Follows(c, Awaiting(mid, left), course) && (s.adapter.None? ==> mid == c)
      && (mid.host.published.Some? <==> c.host.published.Some? && KeepsBound(course))
    ensures Accounts(a, Awaiting(mid, left), step)
  {
    var c := s.(operation := s.operation + 1);
    assert Orphaned(c) == Orphaned(s) && Hanging(c) == Hanging(s) && FlagsOf(c) == FlagsOf(s);
    assert Stale(c) <==> c.host.published.Some?;
    SubscriptionsCount(c, mid);
    AwaitingSame(mid, left);
    OperationsStale(c, mid);
    var f := FlagsOf(a).(registered := true);
    var g := if step.watches then CallsCourse(step.watch, f) else Goes(f);
    assert StepEnds(a, step) <==> g.Ends?;
    if g.Goes? && KeepsBound(CallsCourse(step.bind, g.flags)) {
      BoundBefore(step.bind, g.flags);
    }
    hide CallsCourse, Quiet, Orphaned, TearsDown;
  }

  lemma OperationsStale(a: State, b: State)
    requires TearsDown(a, b) && (a.host.published.Some? ==> Stale(a))
    ensures Stale(b) <==> b.host.published.Some?
    ensures b.lifecycle == a.lifecycle ==> b.adapter == a.adapter
  {
  }

  /** A step that withdraws the target, or leaves it alone. */
  lemma TearsDownAccounts(a: State, b: State, step: Step)
    requires Quiet(a) && TearsDown(a, b) && Keeps(a, b)
    requires step.OnShutdown? || step.OnStart? || step.OnBranchChange?
    requires if StepClears(a, step) then b.operation > a.operation else b == a
    ensures Accounts(a, b, step)
  {
    NeverStale(a, b);
    hide Quiet, TearsDown, Keeps;
    KeepsAccounts(a, b, step);
  }

  /** A re-entrant teardown may withdraw the target shown, and makes none out of date. */
  lemma NeverStale(a: State, b: State)
    requires TearsDown(a, b)
    ensures Stale(b) ==> Stale(a)
    ensures b.operation > a.operation ==> !Stale(b)
  {
  }

  /** Nothing waits that the step could resume. */
  lemma NothingRegisters(s: State, step: Step)
    requires Quiet(s)
    requires match step
             case OnRegistered(p, _, _, _, _, _, _) => p !in s.host.pending || !p.Registering?
             case OnBound(p, _, _, _, _, _, _) => p !in s.host.pending || !p.Attaching?
             case OnResumed(p, _, _) => p !in s.host.pending || !p.Starting?
             case _ => false
    ensures Registers(s, s) && Accounts(s, s, step)
  {
  }

  lemma LoadedIsQuiet()
    ensures Quiet(LOADED) && Clean(LOADED)
  {
  }

  lemma RegistersIsQuiet(a: State, b: State)
    requires Registers(a, b)
    ensures Quiet(b) && Held(b)
  {
  }

  lemma TeardownParts(t: Teardown)
    ensures Starts(t.unbind) ==> TeardownStarts(t)
    ensures TeardownTame(t) ==> Tame(t.unbind)
  {
  }

  lemma DoubledAwaiting(b: State, after: State, left: Pending)
    requires Held(b) && Doubled(b, None) && after == Awaiting(Counted(b), left) && left.ticket == b.host.nextId
    ensures Doubled(after, Some(left))
  {
    var q :| q in b.host.pending && q.Registering? && q.lifecycle == b.lifecycle;
    assert q in after.host.pending && q != left;
  }

  lemma DoubledStays(a: State, b: State)
    requires a.lifecycle == b.lifecycle && a.host.pending == b.host.pending
    ensures Doubled(a, None) ==> Doubled(b, None)
  {
  }

  lemma DoubledHas(s: State, p: Option<Pending>)
    requires Doubled(s, p)
    ensures exists q :: q in s.host.pending && q.Registering? && q.lifecycle == s.lifecycle && p != Some(q)
  {
  }

  lemma SilentShutdownIsTame()
    ensures Tame(Then(Shutdown(SILENT_TEARDOWN), Silent))
  {
    assert CallTame(Shutdown(SILENT_TEARDOWN));
  }

  lemma LeakIsUnclean(a: State, b: State)
    requires Registers(a, b) && Clean(a) && !b.host.shared && !a.host.leaked && b.host.leaked
    ensures !Clean(b) && Quiet(b)
  {
  }

  lemma CleanFollows(a: State, b: State)
    requires Registers(a, b) && Clean(a) && !b.host.shared && !b.host.leaked && !a.host.leaked
    ensures Clean(b) && Quiet(b)
  {
  }

  lemma RunGoesOn(a: State, b: State)
    requires Registers(a, b)
    ensures Quiet(b) && a.host.sessions <= b.host.sessions && (a.host.shared ==> b.host.shared)
    ensures a.lifecycle <= b.lifecycle && (b.lifecycle == a.lifecycle && a.adapter.Some? ==> b.adapter.Some?)
    ensures Clean(a) && !b.host.shared && !b.host.leaked && !a.host.leaked ==> Clean(b)
    ensures StaysDown(a, b)
  {
  }

  lemma ReleasedKeeps(a: State, b: State)
    requires Quiet(a) && TearsDown(a, b) && b.lifecycle > a.lifecycle
    ensures a.host.sessions <= b.host.sessions && b.host.publications == a.host.publications
    ensures b.host.sessions == a.host.sessions ==> Down(b)
    ensures b.host.messages == Stopped(a.host.messages, a.stopMessages)
    ensures b.host.reconnects == Stopped(a.host.reconnects, a.stopReconnects)
    ensures b.host.targets == Stopped(a.host.targets, a.stopTarget)
  {
    if b.host.sessions == a.host.sessions {
      ReleasedIsDown(a, b);
    }
  }

  lemma DownIsSilent(s: State)
    ensures Down(s) ==> s.host.receipts == map[]
  {
  }

  // ---------- Whole runs ----------

  /** Some step made a subscription in the place of another one that was still kept. */
  predicate Overwrote(states: seq<State>, steps: seq<Step>, n: nat)
    requires n <= |states| && n <= |steps|
  {
    exists i :: 0 <= i < n && StepOverwrites(states[i], steps[i])
  }

  /** A step ended its lifecycle while it made a subscription; no release and no registration came since. */
  predicate LeftHanging(states: seq<State>, steps: seq<Step>, n: nat, now: State)
    requires n < |states| && n <= |steps|
  {
    now.adapter.None?
    && exists i :: 0 <= i < n && StepEnds(states[i], steps[i]) && states[i + 1].lifecycle == now.lifecycle
  }

  predicate NoneClears(states: seq<State>, steps: seq<Step>, from: nat, n: nat)
    requires n <= |states| && n <= |steps|
  {
    forall j :: from <= j < n ==> !StepClears(states[j], steps[j])
  }

  /** A registration arrived while a target was shown, and no step since has withdrawn or replaced it. */
  predicate StaleSince(states: seq<State>, steps: seq<Step>, n: nat)
    requires n <= |states| && n <= |steps|
  {
    exists i :: 0 <= i < n && StepStales(states[i], steps[i]) && NoneClears(states, steps, i + 1, n)
  }

  lemma NothingCounts(states: seq<State>, steps: seq<Step>)
    requires states == [LOADED]
    ensures !Orphaned(LOADED) && !Overwrote(states, steps, 0)
    ensures !Hanging(LOADED) && !LeftHanging(states, steps, 0, LOADED)
    ensures !Stale(LOADED) && !StaleSince(states, steps, 0)
  {
  }

  lemma OverwroteNext(states: seq<State>, steps: seq<Step>, n: nat, b: State)
    requires |states| == n + 1 && n < |steps|
    ensures Overwrote(states + [b], steps, n + 1) <==>
      Overwrote(states, steps, n) || StepOverwrites(states[n], steps[n])
  {
    hide StepOverwrites;
    var all := states + [b];
    assert forall i :: 0 <= i <= n ==> all[i] == states[i];
  }

  lemma LeftHangingNext(states: seq<State>, steps: seq<Step>, n: nat, b: State)
    requires |states| == n + 1 && n < |steps| && states[n].lifecycle <= b.lifecycle
    requires forall i :: 0 <= i <= n ==> states[i].lifecycle <= states[n].lifecycle
    requires b.lifecycle == states[n].lifecycle && states[n].adapter.Some? ==> b.adapter.Some?
    requires StepEnds(states[n], steps[n]) ==> b.adapter.None?
    ensures LeftHanging(states + [b], steps, n + 1, b) <==>
      || StepEnds(states[n], steps[n])
      || (LeftHanging(states, steps, n, states[n]) && b.lifecycle == states[n].lifecycle && b.adapter.None?)
  {
    hide StepEnds;
    var all := states + [b];
    assert all[n + 1] == b && forall i :: 0 <= i <= n ==> all[i] == states[i];
    if LeftHanging(all, steps, n + 1, b) {
      var i :| 0 <= i < n + 1 && StepEnds(all[i], steps[i]) && all[i + 1].lifecycle == b.lifecycle;
      if i < n {
        assert StepEnds(states[i], steps[i]) && states[i + 1].lifecycle == states[n].lifecycle;
      }
    }
    if StepEnds(states[n], steps[n]) {
      assert StepEnds(all[n], steps[n]) && all[n + 1].lifecycle == b.lifecycle;
    } else if LeftHanging(states, steps, n, states[n]) && b.lifecycle == states[n].lifecycle && b.adapter.None? {
      var i :| 0 <= i < n && StepEnds(states[i], steps[i]) && states[i + 1].lifecycle == states[n].lifecycle;
      assert StepEnds(all[i], steps[i]) && all[i + 1].lifecycle == b.lifecycle;
    }
  }

  lemma StaleSinceNext(states: seq<State>, steps: seq<Step>, n: nat, b: State)
    requires |states| == n + 1 && n < |steps|
    ensures StaleSince(states + [b], steps, n + 1) <==>
      || StepStales(states[n], steps[n])
      || (StaleSince(states, steps, n) && !StepClears(states[n], steps[n]))
  {
    hide StepStales, StepClears;
    var all := states + [b];
    assert forall i :: 0 <= i <= n ==> all[i] == states[i];
    if StaleSince(all, steps, n + 1) {
      var i :| 0 <= i < n + 1 && StepStales(all[i], steps[i]) && NoneClears(all, steps, i + 1, n + 1);
      if i < n {
        assert !StepClears(all[n], steps[n]);
        assert forall j :: i + 1 <= j < n ==> !StepClears(all[j], steps[j]);
        assert NoneClears(states, steps, i + 1, n);
      }
    }
    if StepStales(states[n], steps[n]) {
      assert StepStales(all[n], steps[n]) && NoneClears(all, steps, n + 1, n + 1);
    } else if StaleSince(states, steps, n) && !StepClears(states[n], steps[n]) {
      var i :| 0 <= i < n && StepStales(states[i], steps[i]) && NoneClears(states, steps, i + 1, n);
      forall j | i + 1 <= j < n + 1
        ensures !StepClears(all[j], steps[j])
      {
        assert j < n ==> !StepClears(states[j], steps[j]);
      }
      assert StepStales(all[i], steps[i]) && NoneClears(all, steps, i + 1, n + 1);
    }
  }

  /** The accounts of the run so far, and of the next step. */
  lemma Counts(states: seq<State>, steps: seq<Step>, n: nat, b: State)
    requires |states| == n + 1 && n < |steps|
    requires Registers(states[n], b) && Accounts(states[n], b, steps[n])
    requires forall i :: 0 <= i <= n ==> states[i].lifecycle <= states[n].lifecycle
    requires Orphaned(states[n]) <==> Overwrote(states, steps, n)
    requires Hanging(states[n]) <==> LeftHanging(states, steps, n, states[n])
    requires Stale(states[n]) <==> StaleSince(states, steps, n)
    ensures Orphaned(b) <==> Overwrote(states + [b], steps, n + 1)
    ensures Hanging(b) <==> LeftHanging(states + [b], steps, n + 1, b)
    ensures Stale(b) <==> StaleSince(states + [b], steps, n + 1)
  {
    assert StepEnds(states[n], steps[n]) ==> Hanging(b);
    RunGoesOn(states[n], b);
    HangingHasNone(b);
    hide Registers, StepEnds, StepOverwrites, StepStales, StepClears, Orphaned, Hanging, Stale, Overwrote, LeftHanging,
         StaleSince;
    OverwroteNext(states, steps, n, b);
    LeftHangingNext(states, steps, n, b);
    StaleSinceNext(states, steps, n, b);
  }

  lemma HangingHasNone(s: State)
    ensures Hanging(s) ==> s.adapter.None?
  {
  }

  lemma QuietIsFresh(s: State)
    requires Quiet(s)
    ensures !s.host.shared ==> !Stale(s)
  {
  }

  /** The registration is kept and watched; only a release during the watch leaves its target subscription. */
  predicate Watched(r: State, s: State)
  {
    && Quiet(s) && Alone(s, r.lifecycle) && r.lifecycle <= s.lifecycle
    && r.host.sessions <= s.host.sessions && (r.host.shared ==> s.host.shared)
    && (s.host.shared || (s.host.published.None? && Vacant(s, Some(r.lifecycle), false)))
    && s.host.leaked == (r.host.leaked || s.lifecycle != r.lifecycle)
    && (s.adapter.Some? <==> s.lifecycle == r.lifecycle)
    && (!s.host.shared && !r.host.leaked && Clean(r) ==> (Clean(s) <==> !s.host.leaked))
  }

  lemma WatchedBy(r: State, mid: State, s: State, watches: bool)
    requires Quiet(r) && (r.host.shared || Vacant(r, Some(r.lifecycle), true))
    requires var a := Adopted(r);
      if watches then TearsDown(WithTarget(a), mid) && s == KeepTarget(mid, a.host.nextId, r.lifecycle)
      else s == a.(stopTarget := None)
    requires Quiet(s) && Alone(s, r.lifecycle)
    ensures Watched(r, s)
  {
    hide Held;
    var a := Adopted(r);
    if watches {
      var w := WithTarget(a);
      assert a.host.nextId in w.host.targets;
      if !r.host.shared && !r.host.leaked {
        assert w.stopTarget.None?;
        assert mid.lifecycle > r.lifecycle ==> mid.adapter.None? && a.host.nextId in mid.host.targets;
      }
    }
  }

  lemma BindingBegins(r: State, s: State)
    requires Watched(r, s)
    ensures Quiet(s.(operation := s.operation + 1))
    ensures s.host.shared || Vacant(s.(operation := s.operation + 1), Some(r.lifecycle), false)
    ensures r.lifecycle <= s.lifecycle && (s.lifecycle == r.lifecycle ==> s.adapter.Some?)
  {
  }

  lemma RegisterEnds(a: State, p: Pending, s: State, mid: State, left: Pending)
    requires Quiet(a) && p in a.host.pending && p == Registering(p.ticket, a.lifecycle)
    requires Watched(Resumed(a, p), s) && TearsDown(s.(operation := s.operation + 1), mid)
    requires s.adapter.None? ==> mid == s.(operation := s.operation + 1)
    requires Quiet(Awaiting(mid, left))
    ensures Registers(a, Awaiting(mid, left))
  {
    hide Held, Quiet, Alone, Vacant;
    var b := Awaiting(mid, left);
    assert Clean(Resumed(a, p)) == Clean(a) && Clean(b) == Clean(mid);
    if Clean(s) {
      CleanStays(s.(operation := s.operation + 1), mid);
    }
  }

  /** The adapter of a registration that just arrived. */
  function Adopted(s: State): State
  {
    s.(adapter := Some(s.host.nextId), host := s.host.(nextId := s.host.nextId + 1))
  }

  lemma AdoptedIsQuiet(s: State, start: nat)
    requires Quiet(s) && Alone(s, start) && start == s.lifecycle && (s.host.shared || s.adapter.None?)
    ensures Quiet(Adopted(s)) && Alone(Adopted(s), start)
    ensures Quiet(Adopted(s).(stopTarget := None)) && Alone(Adopted(s).(stopTarget := None), start)
  {
  }

  lemma RegisteringIsFirst(s: State, p: Pending)
    requires (s.host.shared || Vacant(s, StartOf(p), p.Registering?)) && p.Registering? && p.lifecycle == s.lifecycle
    ensures s.host.shared || s.adapter.None?
  {
  }

  lemma VacantIsAlone(s: State, start: nat)
    requires start <= s.lifecycle && (s.host.shared || Vacant(s, Some(start), false) || Vacant(s, Some(start), true))
    ensures Alone(s, start)
  {
  }

  lemma AloneWith(s: State, start: nat)
    requires Alone(s, start)
    ensures Alone(WithMessages(s), start) && Alone(WithReconnects(s), start) && Alone(WithTarget(s), start)
  {
  }

  lemma KeepsRegisters(a: State, b: State)
    requires Keeps(a, b)
    ensures Registers(a, b)
  {
    SubscriptionsCount(a, b);
    hide Quiet, Clean, Down;
  }

  lemma StartedRegisters(a: State, p: Pending, m: State, n: State)
    requires Quiet(a) && p in a.host.pending && p == Starting(p.ticket, a.lifecycle)
    requires TearsDown(WithMessages(Resumed(a, p)), m)
    requires var b := KeepMessages(m, a.host.nextId, a.lifecycle); TearsDown(WithReconnects(b), n)
    requires Quiet(KeepReconnects(n, m.host.nextId, a.lifecycle))
    ensures Registers(a, KeepReconnects(n, m.host.nextId, a.lifecycle))
  {
    var r := Resumed(a, p);
    ResumedKeeps(a, p);
    var c := KeepReconnects(n, m.host.nextId, a.lifecycle);
    assert a.adapter.Some?;
    assert a.host.shared ==> n.host.shared;
    if !n.host.shared && !a.host.leaked && Clean(a) {
      assert Clean(r) && Unset(r, false);
      StartRegisters(r, m, n);
    }
    hide Quiet, Held, Clean, Subscriptions, Receipts;
  }

  lemma KeepsIsQuiet(a: State, b: State)
    requires Keeps(a, b)
    ensures Quiet(b) && b.host.leaked == a.host.leaked
  {
  }

  lemma QuietKeeps(s: State)
    requires Quiet(s)
    ensures Keeps(s, s)
  {
  }

  lemma QuietIsHeld(s: State)
    requires Quiet(s)
    ensures Held(s)
  {
  }

  lemma SinceIsHeld(a: State, b: State)
    requires Since(a, b)
    ensures Held(b) && a.lifecycle <= b.lifecycle && Subscriptions(a, b) && Continuations(a, b)
    ensures b.operation == a.operation ==> b.lifecycle == a.lifecycle && b.adapter == a.adapter
    ensures b.host.publications == a.host.publications
  {
  }

  /** A continuation is left to wait; its ticket is new. */
  function Awaiting(s: State, p: Pending): State
  {
    s.(host := s.host.(pending := s.host.pending + {p}, nextId := s.host.nextId + 1))
  }

  lemma AdapterLasts(a: State, b: State)
    requires TearsDown(a, b)
    ensures b.lifecycle == a.lifecycle ==> b.adapter == a.adapter
    ensures b.lifecycle > a.lifecycle ==> b.adapter.None?
  {
  }

  lemma VacantStays(a: State, b: State, start: Option<nat>, registering: bool)
    requires TearsDown(a, b) && (start.Some? ==> start.value <= a.lifecycle)
    ensures !a.host.shared && Vacant(a, start, registering) ==> Vacant(b, start, registering)
    ensures a.host.shared ==> b.host.shared
  {
  }

  lemma TearsDownAwaiting(a: State, b: State, p: Pending)
    requires TearsDown(a, b) && b.operation > a.operation && StartOf(p).None?
    ensures TearsDown(a, Awaiting(b, p))
  {
  }

  /** A start of the current lifecycle is counted. */
  ghost function Counted(s: State): State
  {
    var again := exists p :: p in s.host.pending && StartOf(p) == Some(s.lifecycle);
    s.(host := s.host.(sessions := s.host.sessions + 1, shared := s.host.shared || again))
  }

  lemma CountedTearsDown(a: State, b: State)
    requires TearsDown(a, b) && b.lifecycle > a.lifecycle && b.operation > a.operation && Held(b)
    ensures TearsDown(a, Counted(b)) && Held(Counted(b))
    ensures Held(a) && b.host.sessions == a.host.sessions ==> Counted(b).host.shared == b.host.shared
    ensures Counted(b).host.shared || Vacant(Counted(b), Some(b.lifecycle), true)
  {
  }

  lemma RegisteringTearsDown(a: State, b: State, p: Pending)
    requires TearsDown(a, b) && b.operation > a.operation && b.host.sessions > a.host.sessions
    requires p.Registering? && p.lifecycle > a.lifecycle
    ensures TearsDown(a, Awaiting(b, p))
  {
  }

  lemma NothingTearsDown(s: State)
    ensures TearsDown(s, s)
  {
  }
}
