// The adapter of examples/user-input-adapter/extension.ts. Its closure variables are changed across
// awaits, and every call out of it may re-enter it synchronously.
module UserInputAdapter {
  import opened JsMap
  import opened UserInputReentry

  class Adapter {
    var lifecycle: nat
    var bindingOperation: nat
    var adapter: Option<nat>
    var binding: Option<Binding>
    var stopReceipts: Option<nat>
    var stopMessages: Option<nat>
    var stopReconnects: Option<nat>
    var stopTarget: Option<nat>
    var host: Host

    function Now(): State
      reads this
    {
      State(lifecycle, bindingOperation, adapter, binding, stopReceipts, stopMessages, stopReconnects, stopTarget, host)
    }

    constructor ()
      ensures Now() == LOADED
    {
      lifecycle, bindingOperation, adapter, binding := 0, 0, None, None;
      stopReceipts, stopMessages, stopReconnects, stopTarget := None, None, None, None;
      host := LOADED.host;
    }

    /** The adapter called out, and the callee calls back in. */
    method Reenter(calls: Calls)
      requires Held(Now())
      modifies this
      ensures Held(Now()) && TearsDown(old(Now()), Now())
      ensures calls == Silent ==> Now() == old(Now())
      ensures calls.Then? && calls.call.Shutdown? ==> lifecycle > old(lifecycle)
      ensures !Starts(calls) ==> host.sessions == old(host).sessions
      ensures Tame(calls) ==> host.shared == old(host).shared
      ensures calls == NESTED_START ==> Doubled(Now(), None)
      ensures Follows(old(Now()), Now(), CallsCourse(calls, FlagsOf(old(Now()))))
      decreases calls, 0
    {
      hide TearsDown, Held, CallCourse;
      ghost var before := Now();
      match calls
      case Silent =>
        assert TearsDown(before, before) by { NothingTearsDown(before); }
      case Then(call, rest) =>
        assert Starts(calls) == (CallStarts(call) || Starts(rest)) && Tame(calls) == (CallTame(call) && Tame(rest));
        match call {
          case Shutdown(t) =>
            EndingCall(call, FlagsOf(before));
            assert CallStarts(call) == TeardownStarts(t) && CallTame(call) == TeardownTame(t);
            Release(t);
          case Rebind(_, _, _) => StartRebind(call);
          case Start(_, _, _) =>
            EndingCall(call, FlagsOf(before));
            var left := StartSession(call);
        }
        ghost var between := Now();
        Reenter(rest);
        TearsDownTwice(before, between, Now());
        LaterOperation(between, Now());
    }

    /** Stops the receipt subscription, as part of a teardown that began in state `a`. */
    method StopReceipts(calls: Calls, ghost a: State)
      requires Held(Now()) && Withdrawing(a, Now(), false)
      modifies this
      ensures Held(Now()) && Withdrawing(a, Now(), true)
      ensures Releasing(a, old(Now()), 0) ==> Releasing(a, Now(), 1)
      ensures a.lifecycle <= old(lifecycle) && Subscriptions(a, old(Now())) ==> Subscriptions(a, Now())
      ensures old(lifecycle) <= lifecycle && old(bindingOperation) <= bindingOperation
      ensures !Starts(calls) ==> host.sessions == old(host).sessions
      ensures Tame(calls) ==> host.shared == old(host).shared
      ensures calls == Silent ==> stopTarget == old(stopTarget)
      ensures var f := FlagsOf(old(Now()));
        Follows(old(Now()), Now(), if f.receipts then CallsCourse(calls, f) else Goes(f))
      decreases calls, 1
    {
      hide TearsDown;
      if stopReceipts.None? {
        return;
      }
      host := host.(receipts := host.receipts - {stopReceipts.value});
      ghost var b := Now();
      Reenter(calls);
      LaterOperation(b, Now());
      WithdrawingGoesOn(a, b, Now(), true);
      if Releasing(a, old(Now()), 0) {
        ReleasingGoesOn(a, b, Now(), 1);
      }
      if a.lifecycle <= old(lifecycle) && Subscriptions(a, old(Now())) {
        SubscriptionsGoOn(a, b, Now());
      }
    }

    method StopMessages(calls: Calls, ghost a: State)
      requires Held(Now()) && Releasing(a, Now(), 1)
      modifies this
      ensures Held(Now()) && Releasing(a, Now(), 2)
      ensures !Starts(calls) ==> host.sessions == old(host).sessions
      ensures Tame(calls) ==> host.shared == old(host).shared
      ensures calls == Silent ==> stopTarget == old(stopTarget)
      decreases calls, 1
    {
      hide TearsDown, Continuations, Withdrawing, CallsCourse, Follows;
      if stopMessages.None? {
        return;
      }
      host := host.(messages := host.messages - {stopMessages.value});
      ghost var b := Now();
      StillWithdrawing(a, old(Now()), b);
      Reenter(calls);
      ReleasingGoesOn(a, b, Now(), 2);
    }

    method StopReconnects(calls: Calls, ghost a: State)
      requires Held(Now()) && Releasing(a, Now(), 2)
      modifies this
      ensures Held(Now()) && Releasing(a, Now(), 3)
      ensures !Starts(calls) ==> host.sessions == old(host).sessions
      ensures Tame(calls) ==> host.shared == old(host).shared
      ensures calls == Silent ==> stopTarget == old(stopTarget)
      decreases calls, 1
    {
      hide TearsDown, Continuations, Withdrawing, CallsCourse, Follows;
      if stopReconnects.None? {
        return;
      }
      host := host.(reconnects := host.reconnects - {stopReconnects.value});
      ghost var b := Now();
      StillWithdrawing(a, old(Now()), b);
      Reenter(calls);
      ReleasingGoesOn(a, b, Now(), 3);
    }

    method StopTarget(calls: Calls, ghost a: State)
      requires Held(Now()) && Releasing(a, Now(), 3)
      modifies this
      ensures Held(Now()) && Releasing(a, Now(), 4)
      ensures !Starts(calls) ==> host.sessions == old(host).sessions
      ensures Tame(calls) ==> host.shared == old(host).shared
      ensures calls == NESTED_START && old(stopTarget).Some? ==> Doubled(Now(), None)
      decreases calls, 1
    {
      hide TearsDown, Continuations, Withdrawing, CallsCourse, Follows;
      if stopTarget.None? {
        return;
      }
      host := host.(targets := host.targets - {stopTarget.value});
      ghost var b := Now();
      StillWithdrawing(a, old(Now()), b);
      Reenter(calls);
      ReleasingGoesOn(a, b, Now(), 4);
    }

    /** Calls the stop functions in turn, as the teardown that began in state `a`. */
    method StopAll(t: Teardown, ghost a: State)
      requires Held(Now()) && Withdrawing(a, Now(), false) && Releasing(a, Now(), 0)
      modifies this
      ensures Held(Now()) && Releasing(a, Now(), 4)
      ensures !TeardownStarts(t) ==> host.sessions == old(host).sessions
      ensures TeardownTame(t) ==> host.shared == old(host).shared
      ensures t == NESTED_TEARDOWN && old(stopTarget).Some? ==> Doubled(Now(), None)
      decreases t, 0
    {
      hide Withdrawing, Releasing, Held, Subscriptions;
      StopReceipts(t.receipts, a);
      StopMessages(t.messages, a);
      StopReconnects(t.reconnects, a);
      StopTarget(t.target, a);
    }

    method Release(t: Teardown)
      requires Held(Now())
      modifies this
      ensures Held(Now()) && TearsDown(old(Now()), Now())
      ensures lifecycle > old(lifecycle) && bindingOperation > old(bindingOperation)
      ensures !TeardownStarts(t) ==> host.sessions == old(host).sessions
      ensures TeardownTame(t) ==> host.shared == old(host).shared
      ensures t == NESTED_TEARDOWN && old(stopTarget).Some? ==> Doubled(Now(), None)
      decreases t, 1
    {
      hide TearsDown;
      ghost var a := Now();
      lifecycle := lifecycle + 1;
      bindingOperation := bindingOperation + 1;
      ReleaseBegins(a, Now());
      hide Withdrawing, Releasing, Held, Doubled, TeardownStarts, TeardownTame;
      StopAll(t, a);
      TeardownParts(t);
      ghost var b := Now();
      Clear(t.unbind, a);
      if t == NESTED_TEARDOWN {
        DoubledStays(b, Now());
      }
    }

    /** Forgets what was stopped and withdraws the target, at the end of the release that began in state `a`. */
    method Clear(unbind: Calls, ghost a: State)
      requires Held(Now()) && Held(a) && Releasing(a, Now(), 4)
      modifies this
      ensures Held(Now()) && TearsDown(a, Now()) && lifecycle > a.lifecycle && bindingOperation > a.operation
      ensures !Starts(unbind) ==> host.sessions == old(host).sessions
      ensures Tame(unbind) ==> host.shared == old(host).shared
      ensures unbind == Silent ==> host.pending == old(host).pending && lifecycle == old(lifecycle)
      decreases unbind, 1
    {
      hide TearsDown, Releasing, Held, Starts, Tame, CallsCourse, Follows;
      ghost var b := Now();
      ReleasedAll(a, b);
      ClearedHeld(a, b);
      HeldBound(b);
      stopReceipts, stopMessages, stopReconnects, stopTarget := None, None, None, None;
      var published := binding.Some?;
      adapter := None;
      binding := None;
      if published {
        host := host.(published := None);
        Reenter(unbind);
        TearsDownTwice(a, Cleared(b), Now());
        LaterOperation(Cleared(b), Now());
      }
    }

    method Withdraw(c: Call)
      requires Held(Now()) && c.Rebind?
      modifies this
      ensures Held(Now()) && TearsDown(old(Now()), Now())
      ensures bindingOperation > old(bindingOperation)
      ensures !CallStarts(c) ==> host.sessions == old(host).sessions
      ensures CallTame(c) ==> host.shared == old(host).shared
      ensures Follows(old(Now()), Now(), WithdrawCourse(c, FlagsOf(old(Now()))))
      decreases c, 0
    {
      hide TearsDown, Starts, Tame, TeardownStarts, TeardownTame, CallsCourse, WithdrawCourse;
      ghost var a := Now();
      bindingOperation := bindingOperation + 1;
      WithdrawBegins(a, Now());
      hide Withdrawing, Subscriptions, Held, Releasing;
      StopReceipts(c.receipts, a);
      ghost var b := Now();
      Unpublish(c.unbind, a);
      WithdrawFollows(a, b, Now(), c);
    }

    /** Forgets the receipts and withdraws the target, at the end of the withdrawal that began in state `a`. */
    method Unpublish(unbind: Calls, ghost a: State)
      requires Held(Now()) && Withdrawing(a, Now(), true) && Subscriptions(a, Now())
      modifies this
      ensures Held(Now()) && TearsDown(a, Now()) && bindingOperation > a.operation && lifecycle >= old(lifecycle)
      ensures !Starts(unbind) ==> host.sessions == old(host).sessions
      ensures Tame(unbind) ==> host.shared == old(host).shared
      ensures var b := old(Now());
        if b.binding.Some? then Follows(Unbound(b), Now(), CallsCourse(unbind, FlagsOf(Unbound(b))))
        else lifecycle == b.lifecycle && FlagsOf(Now()) == FlagsOf(Unbound(b))
      decreases unbind, 1
    {
      hide TearsDown, Starts, Tame, CallsCourse;
      ghost var b := Now();
      WithdrawnAll(a, b);
      HeldBound(b);
      hide Withdrawing, Subscriptions, Held;
      stopReceipts := None;
      var published := binding.Some?;
      binding := None;
      if published {
        host := host.(published := None);
        Reenter(unbind);
        TearsDownTwice(a, Unbound(b), Now());
        LaterOperation(Unbound(b), Now());
      }
    }

    method Await(p: Pending)
      requires Held(Now()) && p.ticket == host.nextId && (StartOf(p).Some? ==> StartOf(p).value <= lifecycle)
      requires StartOf(p) == Some(lifecycle) && !p.Registering? ==> adapter.Some?
      requires host.shared || Vacant(Now(), StartOf(p), p.Registering?)
      modifies `host
      ensures Held(Now()) && Now() == Awaiting(old(Now()), p)
    {
      host := host.(pending := host.pending + {p}, nextId := host.nextId + 1);
    }

    /** The part of `bindCurrent` up to its await; `starting` names the start that waits for it. */
    method StartBind(operation: nat, calls: Calls, starting: Option<nat>)
      returns (left: Option<Pending>, ghost mid: State)
      requires Held(Now()) && (starting.Some? ==> starting.value <= lifecycle)
      requires starting == Some(lifecycle) ==> adapter.Some?
      requires host.shared || Vacant(Now(), starting, false)
      modifies this
      ensures Held(Now()) && Held(mid) && TearsDown(old(Now()), mid)
      ensures left.None? ==> Now() == mid
      ensures left.Some? ==> old(adapter).Some? && Now() == Awaiting(mid, left.value)
      ensures old(adapter).Some? ==>
        left == Some(Attaching(mid.host.nextId, Binding(old(adapter).value, old(lifecycle), operation), starting))
      ensures calls == Silent || old(adapter).None? ==> mid == old(Now())
      ensures !Starts(calls) ==> host.sessions == old(host).sessions
      ensures Tame(calls) ==> host.shared == old(host).shared
      ensures var f := FlagsOf(old(Now()));
        Follows(old(Now()), mid, if f.registered then CallsCourse(calls, f) else Goes(f))
      decreases calls, 1
    {
      hide TearsDown, CallsCourse;
      if adapter.None? {
        NothingTearsDown(Now());
        return None, Now();
      }
      var binding := Binding(adapter.value, lifecycle, operation);
      ghost var before := Now();
      Reenter(calls);
      mid := Now();
      LaterOperation(before, mid);
      AdapterLasts(before, mid);
      VacantStays(before, mid, starting, false);
      left := Some(Attaching(host.nextId, binding, starting));
      Await(left.value);
    }

    method StartRebind(c: Call)
      requires Held(Now()) && c.Rebind?
      modifies this
      ensures Held(Now()) && TearsDown(old(Now()), Now())
      ensures !CallStarts(c) ==> host.sessions == old(host).sessions
      ensures CallTame(c) ==> host.shared == old(host).shared
      ensures if old(adapter).None? then Now() == old(Now()) else bindingOperation > old(bindingOperation)
      ensures Follows(old(Now()), Now(), CallCourse(c, FlagsOf(old(Now()))))
      decreases c, 1
    {
      hide TearsDown, CallsCourse, WithdrawCourse;
      ghost var a := Now();
      if adapter.None? {
        NothingTearsDown(a);
        return;
      }
      Withdraw(c);
      ghost var b := Now();
      AdapterLasts(a, b);
      var left, mid := StartBind(bindingOperation, c.bind, None);
      TearsDownTwice(a, b, mid);
      LaterOperation(b, mid);
      if left.Some? {
        TearsDownAwaiting(a, mid, left.value);
      }
    }

    /** A session start up to its await. Nothing is left to await on a host without the feature. */
    method StartSession(c: Call) returns (left: Option<Pending>)
      requires Held(Now()) && c.Start?
      modifies this
      ensures Held(Now()) && TearsDown(old(Now()), Now()) && lifecycle > old(lifecycle)
      ensures left.Some? <==> c.supported
      ensures left.Some? ==> left.value.Registering? && left.value in host.pending
      ensures left.Some? && c.register == Silent ==> left.value.lifecycle == lifecycle
      ensures CallTame(c) ==> host.shared == old(host).shared
      ensures c == Start(NESTED_TEARDOWN, true, Silent) && old(stopTarget).Some? ==> Doubled(Now(), left)
      decreases c, 1
    {
      hide TearsDown, Starts, Tame, TeardownStarts, TeardownTame, CallsCourse, Follows;
      ghost var a := Now();
      Release(c.teardown);
      var generation := lifecycle;
      ghost var b := Now();
      CountedTearsDown(a, b);
      hide Held, Vacant, Doubled;
      host := host.(sessions := host.sessions + 1,
                    shared := host.shared || exists p :: p in host.pending && StartOf(p) == Some(generation));
      LaterOperation(a, b);
      ghost var counted := Now();
      assert counted == Counted(b);
      left := RequestRegistration(generation, c.supported, c.register, a);
      if c == Start(NESTED_TEARDOWN, true, Silent) && old(stopTarget).Some? {
        DoubledAwaiting(b, Now(), left.value);
      }
    }

    /** The call of `registerUserInputAdapter`, or the report that it is missing, in a start that began in state `a`. */
    method RequestRegistration(generation: nat, supported: bool, calls: Calls, ghost a: State)
      returns (left: Option<Pending>)
      requires Held(Now()) && TearsDown(a, Now()) && generation == lifecycle > a.lifecycle
      requires bindingOperation > a.operation && host.sessions > a.host.sessions
      requires host.shared || Vacant(Now(), Some(generation), true)
      modifies this
      ensures Held(Now()) && TearsDown(a, Now()) && lifecycle > a.lifecycle
      ensures left.Some? <==> supported
      ensures left.Some? ==> left.value.Registering? && left.value in host.pending
      ensures left.Some? && calls == Silent ==>
        left == Some(Registering(old(host).nextId, generation)) && Now() == Awaiting(old(Now()), left.value)
      ensures Tame(calls) ==> host.shared == old(host).shared
      decreases calls, 1
    {
      hide TearsDown, Held, Vacant, Tame, Starts, CallsCourse, Follows;
      ghost var counted := Now();
      Reenter(calls);
      TearsDownTwice(a, counted, Now());
      LaterOperation(counted, Now());
      if !supported {
        return None;
      }
      ghost var mid := Now();
      VacantStays(counted, mid, Some(generation), true);
      left := Some(Registering(host.nextId, generation));
      Await(left.value);
      RegisteringTearsDown(a, mid, left.value);
    }

    // ---------- Continuations ----------

    /** Replaces the receipt subscription by one for `b`, which delivers its snapshot at once. */
    method Subscribe(b: Binding, stop: Calls, snapshot: Calls) returns (subscription: nat)
      requires Quiet(Now())
      modifies this
      ensures Since(old(Now()), Now()) && stopReceipts.None? && host.receipts == map[subscription := b]
      ensures bindingOperation == old(bindingOperation) ==> binding == Some(b) && adapter == old(adapter)
      ensures stop == Silent && snapshot == Silent ==> bindingOperation == old(bindingOperation)
      ensures Tame(stop) && Tame(snapshot) ==> host.shared == old(host).shared
    {
      hide TearsDown, Held, Since, Quiet, Subscriptions, Continuations, CallsCourse, Follows, Starts;
      ghost var a := Now();
      QuelledSince(a);
      QuietIsHeld(a);
      if stopReceipts.Some? {
        host := host.(receipts := host.receipts - {stopReceipts.value});
        SinceIsHeld(a, Now());
        Reenter(stop);
      } else {
        NothingTearsDown(a);
      }
      SinceGoesOn(a, Quelled(a), Now());
      ghost var s := Now();
      stopReceipts := None;
      binding := Some(b);
      subscription := host.nextId;
      host := host.(receipts := host.receipts[subscription := b], nextId := host.nextId + 1);
      SubscribedSince(a, s, b);
      SinceIsHeld(a, Now());
      Reenter(snapshot);
      SinceGoesOn(a, Subscribed(s, b), Now());
      SinceIsHeld(a, Now());
    }

    /** The rest of `bindCurrent` for a binding that is still current when it arrives. */
    method Attach(b: Binding, stop: Calls, snapshot: Calls, publish: Calls)
      requires Quiet(Now()) && Current(Now(), b)
      modifies this
      ensures Quiet(Now()) && Subscriptions(old(Now()), Now()) && Continuations(old(Now()), Now())
      ensures old(lifecycle) <= lifecycle
      ensures stop == Silent && snapshot == Silent && publish == Silent ==>
        host.published == Some(b) && Current(Now(), b)
      ensures Tame(stop) && Tame(snapshot) && Tame(publish) ==> host.shared == old(host).shared
      ensures old(host).pending <= host.pending
      ensures PublishesAtMost(old(host).publications, host.publications, b)
      ensures !Stale(Now())
    {
      hide TearsDown, Held, Since, Quiet, Subscriptions, Continuations, CallsCourse, Follows, Starts, Tame;
      ghost var a := Now();
      var subscription := Subscribe(b, stop, snapshot);
      ghost var s := Now();
      SinceIsHeld(a, s);
      if adapter != Some(b.adapter) || lifecycle != b.lifecycle || bindingOperation != b.operation {
        host := host.(receipts := host.receipts - {subscription});
        UnsubscribedIsQuiet(a, s, b, subscription);
        SinceIsHeld(a, Now());
        Reenter(publish);
        SinceGoesOn(a, Unsubscribed(s, subscription), Now());
        SinceIsHeld(a, Now());
        QuietStays(Unsubscribed(s, subscription), Now());
        NeverStale(Unsubscribed(s, subscription), Now());
        return;
      }
      stopReceipts := Some(subscription);
      var publication := Publication(b, adapter, lifecycle, bindingOperation, subscription, host.receipts);
      host := host.(published := Some(b), publications := host.publications + [publication]);
      PublishedIsQuiet(a, s, b, subscription);
      QuietIsHeld(Now());
      Reenter(publish);
      QuietStays(Published(s, b, subscription), Now());
      NeverStale(Published(s, b, subscription), Now());
      SubscriptionsGoOn(a, Published(s, b, subscription), Now());
      ContinuationsGoOn(a, Published(s, b, subscription), Now());
      LaterOperation(Published(s, b, subscription), Now());
    }

    /** The start goes on after its binding: it will resume to subscribe the messages. */
    method ContinueStart(start: nat) returns (left: Pending)
      requires Quiet(Now()) && start <= lifecycle && (start == lifecycle ==> adapter.Some?)
      requires host.shared || Vacant(Now(), Some(start), false)
      modifies this
      ensures Keeps(old(Now()), Now()) && left in host.pending && left.Starting? && left.lifecycle == start
      ensures Now() == Awaiting(old(Now()), left)
    {
      hide Keeps, Vacant, Held;
      QuietIsHeld(Now());
      left := Starting(host.nextId, start);
      Await(left);
      AwaitKeeps(old(Now()), left);
    }

    method Fail(t: Teardown, releases: bool, report: Calls)
      requires Quiet(Now())
      modifies this
      ensures Keeps(old(Now()), Now())
      ensures TeardownTame(t) && Tame(report) ==> host.shared == old(host).shared
      ensures old(host).pending <= host.pending
      ensures host.publications == old(host).publications && (releases ==> lifecycle > old(lifecycle))
      ensures Stale(Now()) <==> !releases && Stale(old(Now())) && KeepsBound(CallsCourse(report, FlagsOf(old(Now()))))
    {
      hide Quiet, Held, TearsDown, Keeps, CallsCourse, Stale;
      ghost var a := Now();
      QuietIsHeld(a);
      if releases {
        Release(t);
      } else {
        NothingTearsDown(a);
      }
      ghost var b := Now();
      Reenter(report);
      TearsDownTwice(a, b, Now());
      LaterOperation(b, Now());
      LaterOperation(a, Now());
      TearsDownKeeps(a, Now());
      if releases {
        NeverStale(a, b);
        NeverStale(b, Now());
      } else {
        QuietIsBound(a);
        ShownFollows(a, Now(), CallsCourse(report, FlagsOf(a)));
      }
    }

    /** The binding arrives, or `bind` fails. An outdated binding is dropped either way. */
    method ResumeBind(p: Pending, ok: bool, stop: Calls, snapshot: Calls, publish: Calls, t: Teardown, report: Calls)
      returns (left: Option<Pending>)
      requires Quiet(Now()) && p in host.pending && p.Attaching?
      modifies this
      ensures Keeps(old(Now()), Now())
      ensures left.Some? ==> left.value in host.pending && left.value.Starting? && p.starting == Some(left.value.lifecycle)
      ensures ok && stop == Silent && snapshot == Silent && publish == Silent ==>
        lifecycle == old(lifecycle) && (p.starting.Some? ==> left.Some?)
      ensures Tame(stop) && Tame(snapshot) && Tame(publish) && TeardownTame(t) && Tame(report) ==>
        host.shared == old(host).shared
      ensures old(host).pending - {p} <= host.pending
      ensures ok && Current(old(Now()), p.binding) && stop == Silent && snapshot == Silent && publish == Silent ==>
        host.published == Some(p.binding) && Current(Now(), p.binding)
      ensures if ok && Current(old(Now()), p.binding)
              then PublishesAtMost(old(host).publications, host.publications, p.binding)
              else host.publications == old(host).publications
      ensures !ok && Current(old(Now()), p.binding) && p.starting == Some(old(lifecycle)) ==> lifecycle > old(lifecycle)
      ensures Accounts(old(Now()), Now(), OnBound(p, ok, stop, snapshot, publish, t, report))
    {
      hide Quiet, Held, Keeps, Vacant, Subscriptions, Continuations, Clean, Down, PublishesAtMost, Tame,
           TeardownTame, Stale, CallsCourse, Accounts, FlagsOf, KeepsBound;
      ghost var step := OnBound(p, ok, stop, snapshot, publish, t, report);
      NoneIsAtMost(host.publications, p.binding);
      ghost var a := Now();
      ResumedKeeps(a, p);
      host := host.(pending := host.pending - {p});
      ghost var r := Now();
      KeepsIsQuiet(a, r);
      ResumedSame(a, p);
      var b := p.binding;
      var active := lifecycle == b.lifecycle && bindingOperation == b.operation && adapter == Some(b.adapter);
      left := None;
      if active && !ok {
        if p.starting.None? || p.starting.value == lifecycle {
          Fail(t, p.starting.Some?, report);
          KeepsTwice(a, r, Now());
        }
        KeepsAccounts(a, Now(), step);
        return;
      }
      if active {
        Attach(b, stop, snapshot, publish);
        AttachedKeeps(r, Now());
        VacantSince(r, Now(), p.starting);
      } else {
        QuietKeeps(r);
      }
      KeepsTwice(a, r, Now());
      ghost var s := Now();
      if p.starting.Some? {
        var next := ContinueStart(p.starting.value);
        KeepsTwice(a, s, Now());
        AwaitingSame(s, next);
        left := Some(next);
      }
      KeepsAccounts(a, Now(), step);
    }

    method SubscribeMessages(start: nat, calls: Calls) returns (ghost mid: State)
      requires Quiet(Now()) && Alone(Now(), start)
      modifies this
      ensures TearsDown(WithMessages(old(Now())), mid) && Now() == KeepMessages(mid, old(host).nextId, start)
      ensures Quiet(Now()) && Alone(Now(), start) && old(lifecycle) <= lifecycle
      ensures calls.Then? && calls.call.Shutdown? ==> lifecycle > old(lifecycle)
      ensures lifecycle > old(lifecycle) ==> adapter.None?
      ensures lifecycle == old(lifecycle) ==> adapter == old(adapter)
      ensures Tame(calls) ==> host.shared == old(host).shared
      ensures var course := CallsCourse(calls, FlagsOf(old(Now())));
        && Follows(old(Now()), Now(), course)
        && (start == old(lifecycle) ==> host.leaked == (old(host).leaked || course.Ends?))
        && (Orphaned(Now()) <==> Orphaned(old(Now())) || (course.Goes? && old(stopMessages).Some?))
        && (course.Ends? ==> Hanging(Now()) && stopReconnects.None?)
        && (course.Goes? ==> stopReconnects == old(stopReconnects))
        && (Stale(Now()) <==> Stale(old(Now())) && KeepsBound(course))
    {
      hide Quiet, Held, TearsDown, Alone, CallsCourse;
      ghost var a := Now();
      WithIsQuiet(a);
      AloneWith(a, start);
      var subscription := host.nextId;
      host := host.(messages := host.messages + {subscription}, nextId := subscription + 1);
      QuietIsHeld(Now());
      Reenter(calls);
      mid := Now();
      LaterOperation(WithMessages(a), mid);
      AdapterLasts(WithMessages(a), mid);
      QuietStays(WithMessages(a), mid);
      AloneStays(WithMessages(a), mid, start);
      MessagesKept(a, mid, start);
      KeepIsQuiet(mid, subscription, start);
      QuietIsBound(a);
      ShownFollows(WithMessages(a), mid, CallsCourse(calls, FlagsOf(a)));
      stopMessages := Some(subscription);
      host := host.(leaked := host.leaked || lifecycle != start);
    }

    method SubscribeReconnects(start: nat, calls: Calls) returns (ghost mid: State)
      requires Quiet(Now()) && Alone(Now(), start)
      modifies this
      ensures TearsDown(WithReconnects(old(Now())), mid) && Now() == KeepReconnects(mid, old(host).nextId, start)
      ensures Quiet(Now()) && old(lifecycle) <= lifecycle && (old(host).leaked ==> host.leaked)
      ensures lifecycle > old(lifecycle) ==> adapter.None?
      ensures lifecycle == old(lifecycle) ==> adapter == old(adapter)
      ensures Tame(calls) ==> host.shared == old(host).shared
      ensures host.leaked ==
        (old(host).leaked || start != old(lifecycle) || CallsCourse(calls, FlagsOf(old(Now()))).Ends?)
      ensures var course := CallsCourse(calls, FlagsOf(old(Now())));
        && (Orphaned(Now()) <==> Orphaned(old(Now())) || (course.Goes? && old(stopReconnects).Some?))
        && (course.Ends? || Hanging(old(Now())) ==> Hanging(Now()))
        && (Stale(Now()) <==> Stale(old(Now())) && KeepsBound(course))
        && Follows(old(Now()), Now(), course)
    {
      hide Quiet, Held, TearsDown, Alone, CallsCourse;
      ghost var a := Now();
      WithIsQuiet(a);
      AloneWith(a, start);
      var subscription := host.nextId;
      host := host.(reconnects := host.reconnects + {subscription}, nextId := subscription + 1);
      QuietIsHeld(Now());
      Reenter(calls);
      mid := Now();
      LaterOperation(WithReconnects(a), mid);
      AdapterLasts(WithReconnects(a), mid);
      QuietStays(WithReconnects(a), mid);
      AloneStays(WithReconnects(a), mid, start);
      ReconnectsKept(a, mid, start);
      KeepIsQuiet(mid, subscription, start);
      QuietIsBound(a);
      ShownFollows(WithReconnects(a), mid, CallsCourse(calls, FlagsOf(a)));
      stopReconnects := Some(subscription);
      host := host.(leaked := host.leaked || lifecycle != start);
    }

    /** The start resumes after its binding and subscribes to messages and reconnects, without a check between. */
    method ResumeStart(p: Pending, messages: Calls, reconnects: Calls)
      requires Quiet(Now()) && p in host.pending && p.Starting?
      modifies this
      ensures Registers(old(Now()), Now())
      ensures p.lifecycle == old(lifecycle) && messages.Then? && messages.call.Shutdown? ==>
        lifecycle > old(lifecycle) && host.leaked && adapter.None?
      ensures Tame(messages) && Tame(reconnects) ==> host.shared == old(host).shared
      ensures host.leaked ==
        (old(host).leaked || (p.lifecycle == old(lifecycle) && StartEnds(FlagsOf(old(Now())), messages, reconnects)))
      ensures Accounts(old(Now()), Now(), OnResumed(p, messages, reconnects))
    {
      hide Quiet, Held, TearsDown, Keeps, Clean, Down, Vacant, Registers, Alone, CallsCourse, Stale, Orphaned,
           Hanging, Accounts, KeepsBound, Starts, Tame;
      ghost var a := Now();
      ResumedKeeps(a, p);
      host := host.(pending := host.pending - {p});
      ghost var r := Now();
      KeepsRegisters(a, r);
      KeepsIsQuiet(a, r);
      ResumedSame(a, p);
      if lifecycle != p.lifecycle {
        KeepsAccounts(a, r, OnResumed(p, messages, reconnects));
        return;
      }
      VacantIsAlone(r, p.lifecycle);
      var m := SubscribeMessages(p.lifecycle, messages);
      ghost var s := Now();
      var n := SubscribeReconnects(p.lifecycle, reconnects);
      StartedRegisters(a, p, m, n);
      StartedAccounts(a, r, s, Now(), p, messages, reconnects);
    }

    method SubscribeTarget(start: nat, calls: Calls) returns (ghost mid: State)
      requires Quiet(Now()) && Alone(Now(), start) && start == lifecycle && adapter.Some?
      modifies this
      ensures TearsDown(WithTarget(old(Now())), mid) && Now() == KeepTarget(mid, old(host).nextId, start)
      ensures Quiet(Now()) && Alone(Now(), start)
      ensures old(lifecycle) <= lifecycle && (lifecycle == start ==> adapter.Some?)
      ensures Tame(calls) ==> host.shared == old(host).shared
      ensures old(host).pending <= host.pending && stopTarget.Some?
      ensures calls == Silent ==> host.published == old(host).published && bindingOperation == old(bindingOperation)
      ensures var course := CallsCourse(calls, FlagsOf(old(Now())));
        && Follows(old(Now()), Now(), course) && host.leaked == (old(host).leaked || course.Ends?)
        && (Orphaned(Now()) <==> Orphaned(old(Now())) || (course.Goes? && old(stopTarget).Some?))
        && (course.Ends? ==> Hanging(Now()))
        && (host.published.Some? <==> old(host).published.Some? && KeepsBound(course))
    {
      hide Quiet, Held, TearsDown, Alone, CallsCourse, Stale;
      ghost var a := Now();
      WithIsQuiet(a);
      AloneWith(a, start);
      var subscription := host.nextId;
      host := host.(targets := host.targets + {subscription}, nextId := subscription + 1);
      QuietIsHeld(Now());
      Reenter(calls);
      mid := Now();
      LaterOperation(WithTarget(a), mid);
      AdapterLasts(WithTarget(a), mid);
      QuietStays(WithTarget(a), mid);
      AloneStays(WithTarget(a), mid, start);
      TargetKept(a, mid, start);
      KeepIsQuiet(mid, subscription, start);
      QuietIsBound(a);
      ShownFollows(WithTarget(a), mid, CallsCourse(calls, FlagsOf(a)));
      stopTarget := Some(subscription);
      host := host.(leaked := host.leaked || lifecycle != start);
    }

    /** Sets the new registration and, on a host that reports them, subscribes to target resets. */
    method Watch(start: nat, watches: bool, calls: Calls) returns (ghost mid: State)
      requires Quiet(Now()) && Alone(Now(), start) && start == lifecycle && (host.shared || adapter.None?)
      modifies this
      ensures var r := Adopted(old(Now()));
        if watches then TearsDown(WithTarget(r), mid) && Now() == KeepTarget(mid, r.host.nextId, start)
        else mid == r && Now() == r.(stopTarget := None)
      ensures Quiet(Now()) && Alone(Now(), start) && old(lifecycle) <= lifecycle
      ensures lifecycle == start ==> adapter.Some?
      ensures calls == Silent ==> lifecycle == start
      ensures Tame(calls) ==> host.shared == old(host).shared
      ensures old(host).pending <= host.pending
      ensures watches && calls == Silent ==> stopTarget.Some?
      ensures calls == Silent ==> host.published == old(host).published && bindingOperation == old(bindingOperation)
      ensures host.leaked ==
        (old(host).leaked || (watches && CallsCourse(calls, FlagsOf(old(Now())).(registered := true)).Ends?))
      ensures var f := FlagsOf(old(Now())).(registered := true);
              var course := if watches then CallsCourse(calls, f) else Goes(f);
        && Follows(old(Now()), Now(), course)
        && (Orphaned(Now()) <==> Orphaned(old(Now())) || (course.Goes? && old(stopTarget).Some?))
        && (course.Ends? ==> Hanging(Now()))
        && (host.published.Some? <==> old(host).published.Some? && KeepsBound(course))
    {
      hide Quiet, Held, TearsDown, Alone, CallsCourse, Orphaned, Hanging;
      ghost var a := Now();
      AdoptedIsQuiet(a, start);
      SilentGoes(FlagsOf(a).(registered := true));
      AdoptedSame(a);
      adapter := Some(host.nextId);
      host := host.(nextId := host.nextId + 1);
      ghost var r := Now();
      if watches {
        mid := SubscribeTarget(start, calls);
      } else {
        TargetDropped(a);
        QuietIsBound(a);
        mid := r;
        stopTarget := None;
      }
    }

    /** The registration arrives, or fails: the start goes on to watch and bind, or gives up. */
    method ResumeRegister(p: Pending, ok: bool, watches: bool, watch: Calls, bind: Calls, t: Teardown, report: Calls)
      returns (left: Option<Pending>)
      requires Quiet(Now()) && p in host.pending && p.Registering?
      modifies this
      ensures Registers(old(Now()), Now())
      ensures left.Some? ==> left.value in host.pending && StartOf(left.value) == Some(p.lifecycle)
      ensures ok && watch == Silent ==> host.leaked == old(host).leaked
      ensures ok && p.lifecycle == old(lifecycle) && watch == Silent && bind == Silent ==>
        lifecycle == old(lifecycle) && left.Some? && left.value.Attaching? && Current(Now(), left.value.binding)
      ensures Tame(watch) && Tame(bind) && TeardownTame(t) && Tame(report) ==> host.shared == old(host).shared
      ensures old(host).pending - {p} <= host.pending
      ensures ok && p.lifecycle == old(lifecycle) && watch == Silent && bind == Silent ==>
        && host.published == old(host).published && bindingOperation > old(bindingOperation)
        && (watches ==> stopTarget.Some?)
      ensures !ok && p.lifecycle == old(lifecycle) ==> lifecycle > old(lifecycle)
      ensures host.leaked ==
        (old(host).leaked || (ok && watches && p.lifecycle == old(lifecycle)
                              && CallsCourse(watch, FlagsOf(old(Now())).(registered := true)).Ends?))
      ensures Accounts(old(Now()), Now(), OnRegistered(p, ok, watches, watch, bind, t, report))
    {
      hide Stale, Orphaned, Hanging, Accounts, Quiet, Held, TearsDown, Keeps, Clean, Down, Vacant, Registers, Alone,
           CallsCourse, Watched, TeardownTame, Tame, Current;
      ghost var step := OnRegistered(p, ok, watches, watch, bind, t, report);
      SilentGoes(FlagsOf(Now()).(registered := true));
      ghost var a := Now();
      ResumedKeeps(a, p);
      host := host.(pending := host.pending - {p});
      ghost var r := Now();
      KeepsRegisters(a, r);
      KeepsIsQuiet(a, r);
      ResumedSame(a, p);
      left := None;
      if lifecycle != p.lifecycle {
        KeepsAccounts(a, r, step);
        return;
      }
      if !ok {
        Fail(t, true, report);
        KeepsTwice(a, r, Now());
        KeepsAccounts(a, Now(), step);
        KeepsRegisters(a, Now());
        KeepsIsQuiet(a, Now());
        return;
      }
      var next := WatchAndBind(p, watches, watch, bind, a, step);
      left := Some(next);
    }

    /** A registration that is still current is watched and bound; state `a` is the one it arrived in. */
    method WatchAndBind(p: Pending, watches: bool, watch: Calls, bind: Calls, ghost a: State, ghost step: Step)
      returns (left: Pending)
      requires Quiet(a) && p in a.host.pending && p == Registering(p.ticket, a.lifecycle)
      requires Now() == Resumed(a, p) && Quiet(Now()) && (host.shared || Vacant(Now(), StartOf(p), true))
      requires step.OnRegistered? && step == OnRegistered(p, true, watches, watch, bind, step.teardown, step.report)
      modifies this
      ensures Accounts(a, Now(), step)
      ensures Registers(a, Now()) && left in host.pending && StartOf(left) == Some(p.lifecycle)
      ensures watch == Silent && bind == Silent ==>
        && lifecycle == old(lifecycle) && left.Attaching? && Current(Now(), left.binding)
        && host.published == old(host).published && bindingOperation > old(bindingOperation)
        && (watches ==> stopTarget.Some?)
      ensures Tame(watch) && Tame(bind) ==> host.shared == old(host).shared
      ensures old(host).pending <= host.pending
      ensures host.leaked ==
        (old(host).leaked || (watches && CallsCourse(watch, FlagsOf(old(Now())).(registered := true)).Ends?))
    {
      hide Stale, Orphaned, Hanging, Accounts, Quiet, Held, TearsDown, Clean, Vacant, Registers, Alone, CallsCourse,
           Watched, Tame, Current, FlagsOf;
      ghost var r := Now();
      ResumedSame(a, p);
      VacantIsAlone(r, p.lifecycle);
      RegisteringIsFirst(r, p);
      ghost var w := Watch(p.lifecycle, watches, watch);
      ghost var s := Now();
      WatchedBy(r, w, s, watches);
      bindingOperation := bindingOperation + 1;
      BindingBegins(r, s);
      var next, mid := BindFirst(p.lifecycle, bind);
      RegisterEnds(a, p, s, mid, next);
      RegisteredAccounts(a, s, mid, next, step);
      left := next;
    }

    /** Binds for a start that waits; without a registration the start goes on at once. */
    method BindFirst(start: nat, calls: Calls) returns (left: Pending, ghost mid: State)
      requires Quiet(Now()) && start <= lifecycle && (start == lifecycle ==> adapter.Some?)
      requires host.shared || Vacant(Now(), Some(start), false)
      modifies this
      ensures TearsDown(old(Now()), mid) && (old(adapter).None? ==> mid == old(Now()))
      ensures Quiet(Now()) && Now() == Awaiting(mid, left) && StartOf(left) == Some(start)
      ensures host.leaked == old(host).leaked && (calls == Silent ==> lifecycle == old(lifecycle))
      ensures old(adapter).Some? && calls == Silent ==> left.Attaching? && Current(Now(), left.binding)
      ensures Tame(calls) ==> host.shared == old(host).shared
      ensures old(host).pending <= host.pending
      ensures calls == Silent ==> host.published == old(host).published && stopTarget == old(stopTarget)
      ensures calls == Silent ==> bindingOperation == old(bindingOperation)
      ensures var f := FlagsOf(old(Now()));
              var course := if f.registered then CallsCourse(calls, f) else Goes(f);
        && Follows(old(Now()), Now(), course)
        && (host.published.Some? <==> old(host).published.Some? && KeepsBound(course))
    {
      hide Quiet, Held, TearsDown, Keeps, Vacant;
      ghost var a := Now();
      QuietIsHeld(a);
      var bound;
      bound, mid := StartBind(bindingOperation, calls, Some(start));
      QuietStays(a, mid);
      LaterOperation(a, mid);
      if bound.None? {
        left := ContinueStart(start);
      } else {
        left := bound.value;
        AwaitKeeps(mid, left);
      }
      KeepsIsQuiet(mid, Now());
      QuietIsBound(a);
      ghost var f := FlagsOf(a);
      ShownFollows(a, mid, if f.registered then CallsCourse(calls, f) else Goes(f));
    }

    // ---------- Runs ----------

    /** One step from the host: an event of the session, or a continuation that still waits. */
    method Take(step: Step)
      requires Quiet(Now())
      modifies this
      ensures Registers(old(Now()), Now())
      ensures StepTame(step) ==> host.shared == old(host).shared
      ensures host.leaked == (old(host).leaked || StepEnds(old(Now()), step))
      ensures Accounts(old(Now()), Now(), step)
    {
      hide Quiet, Held, TearsDown, Keeps, Clean, Down, Registers, CallsCourse, Stale, Orphaned, Hanging,
           Accounts;
      ghost var a := Now();
      QuietIsHeld(a);
      match step {
        case OnShutdown(t) =>
          Release(t);
          TearsDownKeeps(a, Now());
          KeepsRegisters(a, Now());
          KeepsIsQuiet(a, Now());
          TearsDownAccounts(a, Now(), step);
        case OnBranchChange(receipts, unbind, bind) =>
          StartRebind(Rebind(receipts, unbind, bind));
          TearsDownKeeps(a, Now());
          KeepsRegisters(a, Now());
          KeepsIsQuiet(a, Now());
          TearsDownAccounts(a, Now(), step);
        case OnStart(t, supported, register) =>
          var left := StartSession(Start(t, supported, register));
          LaterOperation(a, Now());
          TearsDownKeeps(a, Now());
          KeepsRegisters(a, Now());
          KeepsIsQuiet(a, Now());
          TearsDownAccounts(a, Now(), step);
        case OnRegistered(p, ok, watches, watch, bind, t, report) =>
          if p in host.pending && p.Registering? {
            var left := ResumeRegister(p, ok, watches, watch, bind, t, report);
          } else {
            NothingRegisters(a, step);
          }
        case OnBound(p, ok, stop, snapshot, publish, t, report) =>
          if p in host.pending && p.Attaching? {
            var left := ResumeBind(p, ok, stop, snapshot, publish, t, report);
            KeepsRegisters(a, Now());
            KeepsIsQuiet(a, Now());
          } else {
            NothingRegisters(a, step);
          }
        case OnResumed(p, messages, reconnects) =>
          if p in host.pending && p.Starting? {
            ResumeStart(p, messages, reconnects);
          } else {
            NothingRegisters(a, step);
          }
      }
    }

    /**
     * Any run of the extension, with any re-entry. Every target was published properly, and the only
     * live receipts are those of the target shown. `states` are those between the steps.
     *
     * Every other live subscription is kept for a live registration, exactly when no step made one in
     * the place of another still kept, and none that ended its lifecycle while it made one was the last
     * thing to happen to that lifecycle. The target shown is out of date exactly when a registration
     * arrived while a target was shown and nothing has withdrawn or replaced it since.
     */
    method Run(steps: seq<Step>) returns (ghost states: seq<State>)
      requires Now() == LOADED
      modifies this
      ensures |states| == |steps| + 1 && states[0] == LOADED && states[|steps|] == Now()
      ensures Quiet(Now()) && forall i :: 0 <= i < |steps| ==> Registers(states[i], states[i + 1])
      ensures Clean(Now()) <==> !Overwrote(states, steps, |steps|) && !LeftHanging(states, steps, |steps|, Now())
      ensures Stale(Now()) <==> StaleSince(states, steps, |steps|)
      ensures (forall i :: 0 <= i < |steps| ==> StepTame(steps[i])) ==> !host.shared && !Stale(Now())
      ensures (forall i :: 0 <= i < |steps| ==> StepTame(steps[i]) && StepEndless(steps[i])) ==> Clean(Now())
    {
      hide Quiet, Clean, StepTame, StepEndless, StepEnds, StepOverwrites, StepStales, StepClears, Registers, Accounts,
           Orphaned, Hanging, Stale, Overwrote, LeftHanging, StaleSince;
      LoadedIsQuiet();
      states := [Now()];
      NothingCounts(states, steps);
      for i := 0 to |steps|
        invariant |states| == i + 1 && states[0] == LOADED && states[i] == Now()
        invariant Quiet(Now()) && forall j :: 0 <= j < i ==> Registers(states[j], states[j + 1])
        invariant forall j :: 0 <= j <= i ==> states[j].lifecycle <= lifecycle
        invariant Orphaned(Now()) <==> Overwrote(states, steps, i)
        invariant Hanging(Now()) <==> LeftHanging(states, steps, i, Now())
        invariant Stale(Now()) <==> StaleSince(states, steps, i)
        invariant !host.shared && !host.leaked ==> Clean(Now())
        invariant (forall j :: 0 <= j < i ==> StepTame(steps[j])) ==> !host.shared
        invariant (forall j :: 0 <= j < i ==> StepEndless(steps[j])) ==> !host.leaked
      {
        ghost var s := Now();
        Take(steps[i]);
        RunGoesOn(s, Now());
        if StepEndless(steps[i]) {
          EndlessEndsNothing(s, steps[i]);
        }
        Counts(states, steps, i, Now());
        states := states + [Now()];
      }
      CleanExactly(Now());
      QuietIsFresh(Now());
    }

    /**
     * Shuts the session down, then takes any further steps. Until a session starts it stays down: nothing
     * is published and nothing received, and of the subscriptions exactly those are left that were live
     * before without being kept.
     */
    method RunAfterShutdown(t: Teardown, steps: seq<Step>)
      requires Quiet(Now())
      modifies this
      ensures Quiet(Now())
      ensures host.sessions == old(host).sessions ==>
        && Down(Now()) && host.publications == old(host).publications && host.receipts == map[]
        && host.messages == Stopped(old(host).messages, old(stopMessages))
        && host.reconnects == Stopped(old(host).reconnects, old(stopReconnects))
        && host.targets == Stopped(old(host).targets, old(stopTarget))
    {
      hide Quiet, Held, TearsDown, Down, Registers, Accounts;
      ghost var a := Now();
      QuietIsHeld(a);
      Release(t);
      QuietStays(a, Now());
      ReleasedKeeps(a, Now());
      ghost var down := Now();
      for i := 0 to |steps|
        invariant Quiet(Now()) && host.sessions >= down.host.sessions
        invariant host.sessions == old(host).sessions ==>
          Down(Now()) && host.publications == old(host).publications && SameSubscriptions(down, Now())
      {
        ghost var s := Now();
        Take(steps[i]);
        RunGoesOn(s, Now());
      }
      DownIsSilent(Now());
    }

    /** A shutdown that re-enters while messages are being subscribed leaves subscriptions behind. */
    static method LeakByShutdown() returns (a: Adapter)
      ensures fresh(a) && Quiet(a.Now()) && a.adapter.None? && !a.host.shared && !Clean(a.Now())
    {
      hide Quiet, Held, TearsDown, Keeps, Clean, Registers, Down;
      a := new Adapter();
      LoadedIsQuiet();
      QuietIsHeld(a.Now());
      var registering := a.StartSession(Start(SILENT_TEARDOWN, true, Silent));
      ghost var s := a.Now();
      TearsDownKeeps(LOADED, s);
      LaterOperation(LOADED, s);
      KeepsRegisters(LOADED, s);
      CleanFollows(LOADED, s);
      var attaching := a.ResumeRegister(registering.value, true, false, Silent, Silent, SILENT_TEARDOWN, Silent);
      CleanFollows(s, a.Now());
      s := a.Now();
      var starting := a.ResumeBind(attaching.value, true, Silent, Silent, Silent, SILENT_TEARDOWN, Silent);
      KeepsIsQuiet(s, a.Now());
      KeepsRegisters(s, a.Now());
      CleanFollows(s, a.Now());
      s := a.Now();
      assert Tame(Then(Shutdown(SILENT_TEARDOWN), Silent)) by { SilentShutdownIsTame(); }
      a.ResumeStart(starting.value, Then(Shutdown(SILENT_TEARDOWN), Silent), Silent);
      LeakIsUnclean(s, a.Now());
    }

    /** The second of two starts that share a lifecycle puts its target subscription in the place of the first one's. */
    static method LeakByOverwriting() returns (a: Adapter)
      ensures fresh(a) && Quiet(a.Now()) && !Clean(a.Now()) && Orphaned(a.Now()) && !a.host.leaked
    {
      hide Quiet, Held, TearsDown, Keeps, Clean, Registers, Down, Doubled, Orphaned, Hanging, Stale, CallsCourse;
      a := new Adapter();
      LoadedIsQuiet();
      QuietIsHeld(a.Now());
      var earlier := a.StartSession(Start(SILENT_TEARDOWN, true, Silent));
      ghost var s := a.Now();
      QuietStays(LOADED, s);
      LaterOperation(LOADED, s);
      var attaching := a.ResumeRegister(earlier.value, true, true, Silent, Silent, SILENT_TEARDOWN, Silent);
      RegistersIsQuiet(s, a.Now());
      s := a.Now();
      var later := a.StartSession(Start(NESTED_TEARDOWN, true, Silent));
      QuietStays(s, a.Now());
      LaterOperation(s, a.Now());
      DoubledHas(a.Now(), later);
      var first :| first in a.host.pending && first.Registering? && first.lifecycle == a.lifecycle
                   && later != Some(first);
      s := a.Now();
      attaching := a.ResumeRegister(first, true, true, Silent, Silent, SILENT_TEARDOWN, Silent);
      RegistersIsQuiet(s, a.Now());
      s := a.Now();
      SilentGoes(FlagsOf(s).(registered := true));
      attaching := a.ResumeRegister(later.value, true, true, Silent, Silent, SILENT_TEARDOWN, Silent);
      RegistersIsQuiet(s, a.Now());
      CleanExactly(a.Now());
    }

    /** Two starts that share a lifecycle leave the client with a target that is no longer current. */
    static method StaleByNestedStart() returns (a: Adapter)
      ensures fresh(a) && Quiet(a.Now()) && a.host.published.Some? && !Current(a.Now(), a.host.published.value)
    {
      hide Quiet, Held, TearsDown, Keeps, Clean, Registers, Down, Doubled;
      a := new Adapter();
      LoadedIsQuiet();
      QuietIsHeld(a.Now());
      var earlier := a.StartSession(Start(SILENT_TEARDOWN, true, Silent));
      ghost var s := a.Now();
      QuietStays(LOADED, s);
      var attaching := a.ResumeRegister(earlier.value, true, true, Silent, Silent, SILENT_TEARDOWN, Silent);
      RegistersIsQuiet(s, a.Now());
      s := a.Now();
      var later := a.StartSession(Start(NESTED_TEARDOWN, true, Silent));
      QuietStays(s, a.Now());
      DoubledHas(a.Now(), later);
      var first :| first in a.host.pending && first.Registering? && first.lifecycle == a.lifecycle
                   && later != Some(first);
      s := a.Now();
      attaching := a.ResumeRegister(first, true, false, Silent, Silent, SILENT_TEARDOWN, Silent);
      RegistersIsQuiet(s, a.Now());
      s := a.Now();
      var starting := a.ResumeBind(attaching.value, true, Silent, Silent, Silent, SILENT_TEARDOWN, Silent);
      KeepsIsQuiet(s, a.Now());
      s := a.Now();
      attaching := a.ResumeRegister(later.value, true, false, Silent, Silent, SILENT_TEARDOWN, Silent);
      RegistersIsQuiet(s, a.Now());
    }
  }
}
