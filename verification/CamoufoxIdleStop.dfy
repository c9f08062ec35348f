// The idle stop as the source has it: a closure whose variables every call and timer updates in place.
module IdleStopHost {
  import opened JsMap
  import opened IdleStop
  import Laws = IdleStopLaws

  class CamoufoxIdleStop {
    const timeoutMs: int
    var inFlight: nat
    var closed: bool
    var generation: nat
    var cancelTimer: Option<nat>
    /** The world: clock, timers, tool calls and the calls of `stop`. */
    var host: State

    function Now(): State
      reads this
    {
      host.(inFlight := inFlight, closed := closed, generation := generation, cancelTimer := cancelTimer)
    }

    constructor (timeoutMs: int)
      ensures Now() == CREATED && this.timeoutMs == timeoutMs
    {
      this.timeoutMs := timeoutMs;
      inFlight, closed, generation, cancelTimer := 0, false, 0, None;
      host := CREATED;
    }

    method ArmTimer()
      modifies this
      ensures Now() == Arm(old(Now()), timeoutMs)
    {
      cancelTimer := None;
      if closed || timeoutMs <= 0 {
        return;
      }
      generation := generation + 1;
      host := host.(due := host.due[generation := host.now + timeoutMs]);
      cancelTimer := Some(generation);
    }

    method FireTimer(firedGeneration: nat)
      modifies this
      ensures Now() == Fire(old(Now()), timeoutMs, firedGeneration)
    {
      if closed || firedGeneration != generation {
        return;
      }
      cancelTimer := None;
      if inFlight > 0 {
        ArmTimer();
        return;
      }
      host := host.(served := true, stops := host.stops + [Stop(host.now, host.calls, closed, host.lastSettled)]);
    }

    method OnCallStart()
      modifies this
      ensures Now() == CallStart(old(Now()))
    {
      inFlight := inFlight + 1;
      cancelTimer := None;
    }

    method OnCallSettled()
      modifies this
      ensures Now() == CallSettled(old(Now()), timeoutMs)
    {
      inFlight := if inFlight > 0 then inFlight - 1 else 0;
      ArmTimer();
    }

    method CloseStop()
      modifies this
      ensures Now() == Close(old(Now()))
    {
      closed := true;
      generation := generation + 1;
      cancelTimer := None;
    }

    method OpenStop()
      modifies this
      ensures Now() == Open(old(Now()))
    {
      if !closed {
        return;
      }
      closed := false;
      generation := generation + 1;
      cancelTimer := None;
      host := host.(served := true);
    }

    /** One thing that happens: a tool call begins or settles, time passes, a timer is delivered. */
    method Take(e: Event)
      modifies this
      ensures Now() == Step(old(Now()), timeoutMs, e)
      ensures old(Laws.Sound(Now(), timeoutMs)) ==> Laws.Sound(Now(), timeoutMs)
    {
      hide Laws.Sound;
      ghost var s := Now();
      match e {
        case EBegin(call) =>
          if call !in host.begun {
            OnCallStart();
            host := host.(calls := host.calls + {call}, begun := host.begun + {call});
          }
        case ESettle(call) =>
          if call in host.calls {
            host := host.(calls := host.calls - {call}, lastSettled := Some(host.now));
            host := host.(served := closed || timeoutMs <= 0);
            OnCallSettled();
          }
        case EClose => CloseStop();
        case EOpen => OpenStop();
        case EPass(ms) => host := host.(now := host.now + ms);
        case EDeliver(g) =>
          if g in host.due && host.now >= host.due[g] {
            FireTimer(g);
          }
      }
      if Laws.Sound(s, timeoutMs) {
        Laws.StepKeeps(s, timeoutMs, e);
      }
    }

    /**
     * Anything that happens, in any order, to a new stop: it counts the calls that run, it stopped only
     * an idle browser and only in time, and an idle browser it has not stopped has its timer armed.
     */
    method Serve(events: seq<Event>)
      requires Now() == CREATED
      modifies this
      ensures Now() == Run(timeoutMs, events)
      ensures inFlight == |host.calls|
      ensures forall i :: 0 <= i < |host.stops| ==> Laws.SafeStop(host.stops[i], timeoutMs)
      ensures !closed && host.calls == {} && !host.served ==> cancelTimer == Some(generation) && generation in host.due
    {
      hide Step, Laws.SafeStop;
      var i := 0;
      while i < |events|
        invariant 0 <= i <= |events|
        invariant Now() == Run(timeoutMs, events[..i])
      {
        assert events[..i + 1][..i] == events[..i];
        Take(events[i]);
        i := i + 1;
      }
      assert events[..i] == events;
      Laws.RunKeeps(timeoutMs, events);
    }
  }
}
