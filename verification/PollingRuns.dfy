/** What the polling hook has come to, told from the events alone. */
module PollingRuns {
  import opened Ordered
  import opened Polling
  import opened PollingSafety

  // ---- What the events tell of a poller ---------------------------------------------------------------

  /** The reads of the poller that failed since its last success. */
  ghost function FailuresInARow(events: seq<Event>, i: nat): nat {
    if events == [] then 0
    else
      var e, before := events[|events| - 1], FailuresInARow(events[..|events| - 1], i);
      if e.Settle? && e.poller == i then if e.outcome.Success? then 0 else before + 1 else before
  }

  /** Its deadline passed, and its read has not settled since. */
  ghost predicate Overran(events: seq<Event>, i: nat) {
    && events != []
    && (var e := events[|events| - 1];
        e == Deadline(i) || (!(e.Settle? && e.poller == i) && Overran(events[..|events| - 1], i)))
  }

  /** Some read of it was refused in time. */
  ghost predicate Refused(events: seq<Event>, i: nat) {
    exists k :: 0 <= k < |events| && events[k] == Settle(i, Failure(true)) && !Overran(events[..k], i)
  }

  ghost function Power(n: nat): nat {
    if n == 0 then 1 else 2 * Power(n - 1)
  }

  /** The interval after a success; after failures it doubles with each but the first, four times at most, and
      is ten seconds at most. */
  ghost function Wait(interval: nat, failures: nat): nat {
    if failures == 0 then interval else Min(interval * Power(Min(failures - 1, 4)), 10_000)
  }

  lemma WaitIsDelay(interval: nat, failures: nat)
    ensures DelayAfter(interval, failures) == Wait(interval, failures)
  {
    assert Power(0) == 1 && Power(1) == 2 && Power(2) == 4 && Power(3) == 8 && Power(4) == 16;
  }

  // ---- One more event -----------------------------------------------------------------------------------

  lemma {:induction false} RunSplits(h: Hook, events: seq<Event>, e: Event)
    requires Valid(h, events + [e])
    ensures Valid(h, events) && Enabled(Run(h, events), e) && Run(h, events + [e]) == Step(Run(h, events), e)
    decreases |events|
  {
    if events == [] {
      assert [] + [e] == [e] && [e][1..] == [];
    } else {
      assert (events + [e])[0] == events[0] && (events + [e])[1..] == events[1..] + [e];
      RunSplits(Step(h, events[0]), events[1..], e);
    }
  }

  lemma RefusedGrows(events: seq<Event>, e: Event, i: nat)
    ensures Refused(events + [e], i) <==> Refused(events, i) || (e == Settle(i, Failure(true)) && !Overran(events, i))
  {
    var grown := events + [e];
    assert grown[..|events|] == events;
    forall k | 0 <= k < |events| ensures grown[k] == events[k] && grown[..k] == events[..k] {
    }
    if Refused(events, i) {
      var k :| 0 <= k < |events| && events[k] == Settle(i, Failure(true)) && !Overran(events[..k], i);
      assert grown[k] == Settle(i, Failure(true)) && !Overran(grown[..k], i);
    }
    if e == Settle(i, Failure(true)) && !Overran(events, i) {
      assert grown[|events|] == e && !Overran(grown[..|events|], i);
    }
  }

  /** What a poller remembers is what the events tell. */
  ghost predicate Tells(p: Poller, failures: nat, overran: bool, refused: bool) {
    p.failures == failures && ((p.pending && p.timedOut) <==> overran) && (p.terminal <==> refused)
  }

  ghost predicate TellsAt(h: Hook, events: seq<Event>, i: nat) {
    if i < |h.pollers|
    then h.pollers[i].active ==> Tells(h.pollers[i], FailuresInARow(events, i), Overran(events, i), Refused(events, i))
    else FailuresInARow(events, i) == 0 && !Overran(events, i) && !Refused(events, i)
  }

  /** The active poller was started by the last run of the effect, which no later one precedes. */
  ghost predicate StartedByEffect(h: Hook) {
    && (h.ran.Some? ==> h.ran.value.revision <= h.deps.revision)
    && (forall i :: 0 <= i < |h.pollers| && h.pollers[i].active ==>
          h.ran.Some? && h.ran.value.key == Some(h.pollers[i].key) && h.ran.value.interval == h.pollers[i].interval)
  }

  lemma StepKeepsStart(h: Hook, e: Event)
    requires Inv(h) && Enabled(h, e) && StartedByEffect(h)
    ensures StartedByEffect(Step(h, e))
  {
  }

  lemma StepTells(h: Hook, events: seq<Event>, e: Event, i: nat)
    requires Inv(h) && Enabled(h, e) && TellsAt(h, events, i)
    ensures TellsAt(Step(h, e), events + [e], i)
  {
    var t := Step(h, e);
    assert (events + [e])[..|events|] == events;
    RefusedGrows(events, e, i);
    if i < |h.pollers| {
      assert Sound(h.pollers[i]);
      PollerTells(h, events, e, i);
    } else {
      assert !(e.Settle? && e.poller == i) && e != Deadline(i);
    }
  }

  lemma PollerTells(h: Hook, events: seq<Event>, e: Event, i: nat)
    requires i < |h.pollers| && Sound(h.pollers[i]) && Enabled(h, e) && TellsAt(h, events, i)
    ensures var p := Step(h, e).pollers[i];
            var mine := e.Settle? && e.poller == i;
            p.active ==> Tells(p,
              if mine then if e.outcome.Success? then 0 else FailuresInARow(events, i) + 1 else FailuresInARow(events, i),
              e == Deadline(i) || (!mine && Overran(events, i)),
              Refused(events, i) || (e == Settle(i, Failure(true)) && !Overran(events, i)))
  {
  }

  lemma {:induction false} RunTells(key: Option<nat>, interval: nat, events: seq<Event>, i: nat)
    requires Valid(Mounted(key, interval), events)
    ensures var h := Run(Mounted(key, interval), events); Inv(h) && StartedByEffect(h) && TellsAt(h, events, i)
    decreases |events|
  {
    var start := Mounted(key, interval);
    RunKeepsInv(start, events);
    if events != [] {
      var init, e := events[..|events| - 1], events[|events| - 1];
      assert init + [e] == events;
      RunSplits(start, init, e);
      RunTells(key, interval, init, i);
      StepKeepsStart(Run(start, init), e);
      StepTells(Run(start, init), init, e, i);
    }
  }

  // ---- Whole runs ---------------------------------------------------------------------------------------

  /** In every run the active poller reads the key, at the interval, that the effect last ran for. It has given
      up exactly if a read was refused in time, and otherwise waits by the failures since its last success. */
  lemma PollerExactly(key: Option<nat>, interval: nat, events: seq<Event>, i: nat)
    requires Valid(Mounted(key, interval), events) && i < |Run(Mounted(key, interval), events).pollers|
    requires Run(Mounted(key, interval), events).pollers[i].active
    ensures var h := Run(Mounted(key, interval), events); var p := h.pollers[i];
            && h.ran.Some? && h.ran.value.key == Some(p.key) && h.ran.value.interval == p.interval
            && (p.terminal <==> Refused(events, i))
            && (p.inFlight == 0 <==> p.timer.Some? || Refused(events, i))
            && (p.timer.Some? ==> p.timer.value == Wait(p.interval, FailuresInARow(events, i)))
  {
    RunTells(key, interval, events, i);
    var p := Run(Mounted(key, interval), events).pollers[i];
    assert Sound(p);
    WaitIsDelay(p.interval, p.failures);
  }

  /** A read that settles for the key being rendered shows at once: its value; or, if it was refused in time,
      that the resource is unavailable, without any data; or that it is reconnecting, with the data shown so
      far. A cancelled poller's read shows nothing. */
  lemma ReadsShow(key: Option<nat>, interval: nat, events: seq<Event>, i: nat, o: Outcome)
    requires Valid(Mounted(key, interval), events + [Settle(i, o)])
    ensures Valid(Mounted(key, interval), events) && i < |Run(Mounted(key, interval), events).pollers|
    ensures var h, t := Run(Mounted(key, interval), events), Run(Mounted(key, interval), events + [Settle(i, o)]);
            var p, shown := h.pollers[i], Shown(t);
            if !p.active then shown == Shown(h)
            else h.deps.key == Some(p.key) ==>
              match o
              case Success(value) => shown == Snapshot(Some(p.key), Some(Loaded(p.key, value)), Live, false)
              case Failure(denied) =>
                if denied && !Overran(events, i) then shown == Snapshot(Some(p.key), None, Unavailable, true)
                else shown == Snapshot(Some(p.key), Shown(h).data, Reconnecting, true)
  {
    RunSplits(Mounted(key, interval), events, Settle(i, o));
    RunTells(key, interval, events, i);
  }

  /** The effect runs when something it depends on was rendered anew, or a refresh was asked for, and a refresh
      cancels at once. */
  lemma RestartsExactly(key: Option<nat>, interval: nat, events: seq<Event>)
    requires Valid(Mounted(key, interval), events)
    ensures var h := Run(Mounted(key, interval), events); var t := Step(h, Refresh);
            && Enabled(t, Effect) && Shown(t) == Shown(h)
            && (forall i :: 0 <= i < |t.pollers| ==> !t.pollers[i].active)
            && (Enabled(h, Effect) <==>
                  h.ran.None? || h.ran.value.key != h.deps.key || h.ran.value.interval != h.deps.interval
                  || h.ran.value.revision < h.deps.revision)
  {
    RunTells(key, interval, events, 0);
  }

  /** It stops whatever polled before, and, if there is a key, starts a new poller with one read in flight.
      What is shown stays for the same key and starts empty for another. */
  lemma EffectStartsOver(key: Option<nat>, interval: nat, events: seq<Event>)
    requires Valid(Mounted(key, interval), events + [Effect])
    ensures Valid(Mounted(key, interval), events)
    ensures var h, t := Run(Mounted(key, interval), events), Run(Mounted(key, interval), events + [Effect]);
            && t.deps == h.deps && t.ran == Some(h.deps)
            && |t.pollers| == |h.pollers| + (if h.deps.key.Some? then 1 else 0)
            && (forall i :: 0 <= i < |h.pollers| ==> !t.pollers[i].active)
            && (h.deps.key.Some? ==>
                  var p := t.pollers[|h.pollers|];
                  p.active && p.key == h.deps.key.value && p.interval == h.deps.interval && p.inFlight == 1 && p.failures == 0
                  && !p.terminal)
            && Shown(t) == (if h.snapshot.key == h.deps.key then h.snapshot
                            else Snapshot(h.deps.key, None, if h.deps.key.None? then Idle else Connecting, false))
  {
    RunSplits(Mounted(key, interval), events, Effect);
    RunTells(key, interval, events, 0);
  }

  /** Coming back online or into view, an active poller that was not refused reads at once if it does not yet;
      while the page is hidden nothing happens, and nothing else changes either way. */
  lemma WakesExactly(key: Option<nat>, interval: nat, events: seq<Event>, i: nat, hidden: bool)
    requires Valid(Mounted(key, interval), events + [Wake(i, hidden)])
    ensures Valid(Mounted(key, interval), events)
    ensures var h, t := Run(Mounted(key, interval), events), Run(Mounted(key, interval), events + [Wake(i, hidden)]);
            && |t.pollers| == |h.pollers| && t == h.(pollers := t.pollers)
            && (forall j :: 0 <= j < |h.pollers| && j != i ==> t.pollers[j] == h.pollers[j])
            && i < |h.pollers| && h.pollers[i].active
            && (if hidden || Refused(events, i) || h.pollers[i].inFlight == 1 then t.pollers[i] == h.pollers[i]
                else t.pollers[i] == h.pollers[i].(pending := true, inFlight := 1, timer := None, deadline := true, timedOut := false))
  {
    RunSplits(Mounted(key, interval), events, Wake(i, hidden));
    RunTells(key, interval, events, i);
    var h := Run(Mounted(key, interval), events);
    assert Sound(h.pollers[i]);
  }
}
