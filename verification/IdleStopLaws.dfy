// Over every run the idle stop stops only an idle browser, and forgets none.
module IdleStopLaws {
  import opened JsMap
  import opened IdleStop

  predicate SafeStop(t: Stop, timeoutMs: int)
  {
    t.calls == {} && !t.closed && t.lastSettled.Some? && t.at >= t.lastSettled.value + timeoutMs
  }

  /** While open, the current generation, if scheduled, is due a full timeout after the last settled call. */
  predicate Timely(s: State, timeoutMs: int)
  {
    && (forall g :: g in s.due ==> g <= s.generation)
    && (s.closed ==> s.generation !in s.due)
    && (s.generation in s.due ==> s.lastSettled.Some? && s.due[s.generation] >= s.lastSettled.value + timeoutMs)
    && (s.lastSettled.Some? ==> s.lastSettled.value <= s.now)
  }

  /** While idle and open after a settled call, the timer is armed or has done its work. */
  predicate Waiting(s: State)
  {
    && (s.cancelTimer.Some? ==> s.cancelTimer.value == s.generation && s.generation in s.due)
    && (!s.closed && s.calls == {} && !s.served ==> s.cancelTimer.Some?)
  }

  predicate Bracketed(s: State)
  {
    s.inFlight == |s.calls| && s.calls <= s.begun
  }

  predicate Sound(s: State, timeoutMs: int)
  {
    && Timely(s, timeoutMs) && Waiting(s) && Bracketed(s)
    && (s.due != map[] ==> timeoutMs > 0)
    && (forall i :: 0 <= i < |s.stops| ==> SafeStop(s.stops[i], timeoutMs))
  }

  lemma CallKeeps(s: State, timeoutMs: int, e: Event)
    requires Sound(s, timeoutMs) && (e.EBegin? || e.ESettle?)
    ensures Sound(Step(s, timeoutMs, e), timeoutMs)
  {
    hide SafeStop;
  }

  lemma DeliveryKeeps(s: State, timeoutMs: int, g: nat)
    requires Sound(s, timeoutMs)
    ensures Sound(Step(s, timeoutMs, EDeliver(g)), timeoutMs)
  {
  }

  lemma StepKeeps(s: State, timeoutMs: int, e: Event)
    requires Sound(s, timeoutMs)
    ensures Sound(Step(s, timeoutMs, e), timeoutMs)
  {
    hide SafeStop, Fire, CallStart, CallSettled;
    if e.EBegin? || e.ESettle? {
      CallKeeps(s, timeoutMs, e);
    } else if e.EDeliver? {
      DeliveryKeeps(s, timeoutMs, e.generation);
    }
  }

  lemma {:induction false} RunKeeps(timeoutMs: int, events: seq<Event>)
    ensures Sound(Run(timeoutMs, events), timeoutMs)
  {
    hide Step, Sound;
    if events == [] {
      assert Sound(CREATED, timeoutMs) by { CreatedIsSound(timeoutMs); }
    } else {
      RunKeeps(timeoutMs, events[..|events| - 1]);
      StepKeeps(Run(timeoutMs, events[..|events| - 1]), timeoutMs, events[|events| - 1]);
    }
  }

  lemma CreatedIsSound(timeoutMs: int)
    ensures Sound(CREATED, timeoutMs)
  {
  }

  /**
   * Over every run the browser is stopped only while the stop is open, with no tool call running, and
   * at least the timeout after the last one settled, however late or often timers are delivered.
   */
  lemma {:induction false} StopsAreSafe(timeoutMs: int, events: seq<Event>, i: nat)
    requires i < |Run(timeoutMs, events).stops|
    ensures SafeStop(Run(timeoutMs, events).stops[i], timeoutMs)
  {
    hide Run;
    RunKeeps(timeoutMs, events);
  }

  /**
   * And no idle browser is forgotten: with no call running, once a call has settled since the stop was
   * opened, either the browser was stopped since or delivering the armed timer stops it.
   */
  lemma {:induction false} IdleIsStopped(timeoutMs: int, events: seq<Event>)
    requires timeoutMs > 0
    requires var s := Run(timeoutMs, events); !s.closed && s.calls == {} && !s.served
    ensures var s := Run(timeoutMs, events);
      && s.generation in s.due
      && |Fire(s, timeoutMs, s.generation).stops| == |s.stops| + 1
  {
    hide Run;
    RunKeeps(timeoutMs, events);
  }
}
