// The idle stop of packages/cli/src/camoufox-adapter.ts: a browser is stopped some time after its last
// tool call. The timer source may ignore cancellation and deliver a callback late, or more than once.
module IdleStop {
  import opened JsMap

  /** What one call of `stop` found. */
  datatype Stop = Stop(at: nat, calls: set<nat>, closed: bool, lastSettled: Option<nat>)

  /**
   * `inFlight`, `closed`, `generation` and `cancelTimer` are the closure's variables. `due` holds, for
   * every generation ever scheduled, the time before which its callback is not delivered. `calls` are
   * the tool calls now running, `begun` all that ever started. `served` says that the browser was
   * stopped, or the stop reopened, after the last settled call.
   */
  datatype State = State(
    inFlight: nat, closed: bool, generation: nat, cancelTimer: Option<nat>,
    now: nat, due: map<nat, nat>, calls: set<nat>, begun: set<nat>, lastSettled: Option<nat>, served: bool,
    stops: seq<Stop>)

  const CREATED := State(0, false, 0, None, 0, map[], {}, {}, None, true, [])

  function Arm(s: State, timeoutMs: int): State
  {
    if s.closed || timeoutMs <= 0 then s.(cancelTimer := None)
    else
      var g := s.generation + 1;
      s.(generation := g, cancelTimer := Some(g), due := s.due[g := s.now + timeoutMs])
  }

  function Fire(s: State, timeoutMs: int, fired: nat): State
  {
    if s.closed || fired != s.generation then s
    else if s.inFlight > 0 then Arm(s.(cancelTimer := None), timeoutMs)
    else s.(cancelTimer := None, served := true, stops := s.stops + [Stop(s.now, s.calls, s.closed, s.lastSettled)])
  }

  function CallStart(s: State): State
  {
    s.(inFlight := s.inFlight + 1, cancelTimer := None)
  }

  function CallSettled(s: State, timeoutMs: int): State
  {
    Arm(s.(inFlight := if s.inFlight > 0 then s.inFlight - 1 else 0), timeoutMs)
  }

  function Close(s: State): State
  {
    s.(closed := true, generation := s.generation + 1, cancelTimer := None)
  }

  function Open(s: State): State
  {
    if !s.closed then s
    else s.(closed := false, generation := s.generation + 1, cancelTimer := None, served := true)
  }

  /** A tool call settles exactly once after it starts, whether its delegate returns or throws. */
  datatype Event =
    | EBegin(call: nat) | ESettle(call: nat) | EClose | EOpen | EPass(ms: nat) | EDeliver(generation: nat)

  function Step(s: State, timeoutMs: int, e: Event): State
  {
    match e
    case EBegin(call) =>
      if call in s.begun then s else CallStart(s).(calls := s.calls + {call}, begun := s.begun + {call})
    case ESettle(call) =>
      if call !in s.calls then s
      else
        CallSettled(s.(calls := s.calls - {call}, lastSettled := Some(s.now),
                       served := s.closed || timeoutMs <= 0), timeoutMs)
    case EClose => Close(s)
    case EOpen => Open(s)
    case EPass(ms) => s.(now := s.now + ms)
    case EDeliver(g) => if g in s.due && s.now >= s.due[g] then Fire(s, timeoutMs, g) else s
  }

  function Run(timeoutMs: int, events: seq<Event>): State
  {
    if events == [] then CREATED
    else Step(Run(timeoutMs, events[..|events| - 1]), timeoutMs, events[|events| - 1])
  }
}
