/** The polling hook, web/src/usePollingResource.ts, as a machine of events: a chain of pollers, one for each
    run of the effect, whose inFlight settle, time out, are woken or cancelled in any order. */
module Polling {
  import opened Ordered

  const MAX_DELAY_MS: nat := 10_000

  datatype Status = Idle | Connecting | Live | Reconnecting | Unavailable
  /** A value with the key it was loaded for. */
  datatype Loaded = Loaded(key: nat, value: nat)
  datatype Snapshot = Snapshot(key: Option<nat>, data: Option<Loaded>, status: Status, failed: bool)

  /** The variables one run of the effect closes over, with the number of reads in flight. */
  datatype Poller = Poller(
    key: nat, interval: nat, active: bool, pending: bool, terminal: bool, failures: nat,
    timer: Option<nat>, deadline: bool, timedOut: bool, inFlight: nat)

  /** How a read ends; a denied one was refused for good, as unauthorised, forbidden or not found. */
  datatype Outcome = Success(value: nat) | Failure(denied: bool)

  function Empty(key: Option<nat>): Snapshot {
    Snapshot(key, None, if key.None? then Idle else Connecting, false)
  }

  function Poll(p: Poller): Poller {
    if !p.active || p.pending || p.terminal then p
    else p.(pending := true, deadline := true, timedOut := false, inFlight := p.inFlight + 1)
  }

  function Started(key: nat, interval: nat): Poller {
    Poll(Poller(key, interval, true, false, false, 0, None, false, false, 0))
  }

  function Cancelled(p: Poller): Poller {
    p.(active := false, deadline := false, timer := None)
  }

  function Doublings(failures: nat): nat {
    match Min(failures, 4) case 0 => 1 case 1 => 2 case 2 => 4 case 3 => 8 case _ => 16
  }

  /** The wait after a failure that was preceded by so many. */
  function RetryDelay(interval: nat, failures: nat): nat {
    Min(interval * Doublings(failures), MAX_DELAY_MS)
  }

  /** A read timed out never counts as denied. */
  predicate Denied(p: Poller, o: Outcome) {
    o.Failure? && o.denied && !p.timedOut
  }

  function Settled(p: Poller, o: Outcome): Poller {
    var q := p.(pending := false, deadline := false, inFlight := if p.inFlight > 0 then p.inFlight - 1 else 0);
    if !p.active then q
    else if o.Success? then q.(failures := 0, timer := Some(p.interval))
    else q.(failures := p.failures + 1, terminal := Denied(p, o),
            timer := if Denied(p, o) then q.timer else Some(RetryDelay(p.interval, p.failures)))
  }

  /** What a settled read makes of the shared snapshot. */
  function Published(p: Poller, o: Outcome, s: Snapshot): Snapshot {
    if !p.active then s
    else if o.Success? then Snapshot(Some(p.key), Some(Loaded(p.key, o.value)), Live, false)
    else
      Snapshot(Some(p.key), if Denied(p, o) || s.key != Some(p.key) then None else s.data,
               if Denied(p, o) then Unavailable else Reconnecting, true)
  }

  function Woken(p: Poller, hidden: bool): Poller {
    if hidden || p.pending || p.terminal then p else Poll(p.(timer := None))
  }

  // ---- The hook ---------------------------------------------------------------------------

  /** key, interval and revision are those last rendered; ran are those the effect last ran for. */
  datatype Deps = Deps(key: Option<nat>, interval: nat, revision: nat)
  datatype Hook = Hook(deps: Deps, ran: Option<Deps>, snapshot: Snapshot, pollers: seq<Poller>, current: Option<nat>)

  datatype Event =
    | Render(key: Option<nat>, interval: nat)
    | Effect
    | Refresh
    | Settle(poller: nat, outcome: Outcome)
    | Deadline(poller: nat)
    | Fire(poller: nat)
    | Wake(poller: nat, hidden: bool)

  /** Timers and listeners exist only while the poller holds them; a read settles once. */
  predicate Enabled(h: Hook, e: Event) {
    match e
    case Render(_, _) => true
    case Effect => h.ran != Some(h.deps)
    case Refresh => true
    case Settle(i, _) => i < |h.pollers| && h.pollers[i].pending
    case Deadline(i) => i < |h.pollers| && h.pollers[i].deadline
    case Fire(i) => i < |h.pollers| && h.pollers[i].timer.Some?
    case Wake(i, _) => i < |h.pollers| && h.pollers[i].active
  }

  function CancelCurrent(h: Hook): seq<Poller> {
    if h.current.Some? && h.current.value < |h.pollers|
    then h.pollers[h.current.value := Cancelled(h.pollers[h.current.value])] else h.pollers
  }

  /** Clean the last run up and start over for the rendered key. */
  function RunEffect(h: Hook): Hook {
    var stopped := CancelCurrent(h);
    var snapshot := if h.snapshot.key == h.deps.key then h.snapshot else Empty(h.deps.key);
    if h.deps.key.None? then Hook(h.deps, Some(h.deps), snapshot, stopped, None)
    else Hook(h.deps, Some(h.deps), snapshot, stopped + [Started(h.deps.key.value, h.deps.interval)], Some(|stopped|))
  }

  function Step(h: Hook, e: Event): Hook
    requires Enabled(h, e)
  {
    match e
    case Render(key, interval) => h.(deps := Deps(key, interval, h.deps.revision))
    case Effect => RunEffect(h)
    case Refresh => h.(pollers := CancelCurrent(h), deps := h.deps.(revision := h.deps.revision + 1))
    case Settle(i, o) =>
      h.(pollers := h.pollers[i := Settled(h.pollers[i], o)], snapshot := Published(h.pollers[i], o, h.snapshot))
    case Deadline(i) => h.(pollers := h.pollers[i := h.pollers[i].(deadline := false, timedOut := true)])
    case Fire(i) => h.(pollers := h.pollers[i := Poll(h.pollers[i].(timer := None))])
    case Wake(i, hidden) => h.(pollers := h.pollers[i := Woken(h.pollers[i], hidden)])
  }

  /** What the hook returns to its caller. */
  function Shown(h: Hook): Snapshot {
    if h.snapshot.key == h.deps.key then h.snapshot else Empty(h.deps.key)
  }

  function Mounted(key: Option<nat>, interval: nat): Hook {
    Hook(Deps(key, interval, 0), None, Empty(key), [], None)
  }

  ghost predicate Valid(h: Hook, events: seq<Event>)
    decreases |events|
  {
    events == [] || (Enabled(h, events[0]) && Valid(Step(h, events[0]), events[1..]))
  }

  ghost function Run(h: Hook, events: seq<Event>): Hook
    requires Valid(h, events)
    decreases |events|
  {
    if events == [] then h else Run(Step(h, events[0]), events[1..])
  }
}
