/** Every interleaving of completions, timeouts, wakes, refreshes and renders keeps the polling invariants. */
module PollingSafety {
  import opened Ordered
  import opened Polling

  /** The wait armed after so many failures in a row. */
  function DelayAfter(interval: nat, failures: nat): nat {
    if failures == 0 then interval else RetryDelay(interval, failures - 1)
  }

  ghost predicate Sound(p: Poller) {
    && p.inFlight == (if p.pending then 1 else 0)
    && (p.active && !p.terminal ==> (p.pending <==> p.timer.None?))
    && (!p.active || p.terminal ==> p.timer.None?)
    && (p.terminal && p.active ==> !p.pending)
    && (p.deadline ==> p.active && p.pending)
    && (p.timer.Some? ==> p.timer.value == DelayAfter(p.interval, p.failures))
  }

  ghost predicate AllSound(h: Hook) {
    forall i :: 0 <= i < |h.pollers| ==> Sound(h.pollers[i])
  }

  /** Only the current run polls, and it polls the key the effect last ran for. */
  ghost predicate OneActive(h: Hook) {
    && (h.current.Some? ==> h.current.value < |h.pollers| && h.ran.Some?
                            && h.ran.value.key == Some(h.pollers[h.current.value].key))
    && (forall i :: 0 <= i < |h.pollers| && h.pollers[i].active ==> h.current == Some(i))
  }

  ghost predicate DataMatches(h: Hook) {
    h.snapshot.data.Some? ==> h.snapshot.key == Some(h.snapshot.data.value.key)
  }

  /** A refused poller shows as unavailable, without data. */
  ghost predicate RefusalShows(h: Hook) {
    forall i :: 0 <= i < |h.pollers| && h.pollers[i].active && h.pollers[i].terminal ==>
      h.snapshot.key == Some(h.pollers[i].key) && h.snapshot.status == Unavailable && h.snapshot.data == None
  }

  ghost predicate Inv(h: Hook) {
    AllSound(h) && OneActive(h) && DataMatches(h) && RefusalShows(h)
  }

  lemma SettledIsSound(p: Poller, o: Outcome)
    requires Sound(p) && p.pending
    ensures Sound(Settled(p, o))
  {
  }

  lemma WokenIsSound(p: Poller, hidden: bool)
    requires Sound(p)
    ensures Sound(Woken(p, hidden)) && Sound(Cancelled(p))
    ensures p.timer.Some? ==> Sound(Poll(p.(timer := None)))
  {
  }

  lemma StepKeepsSound(h: Hook, e: Event)
    requires Inv(h) && Enabled(h, e)
    ensures AllSound(Step(h, e))
  {
    var t := Step(h, e);
    forall i | 0 <= i < |t.pollers| ensures Sound(t.pollers[i]) {
      if i < |h.pollers| {
        WokenIsSound(h.pollers[i], e.Wake? && e.hidden);
        if e.Settle? && e.poller == i {
          SettledIsSound(h.pollers[i], e.outcome);
        }
      }
    }
  }

  lemma StepKeepsOne(h: Hook, e: Event)
    requires Inv(h) && Enabled(h, e)
    ensures OneActive(Step(h, e))
  {
  }

  lemma StepKeepsSnapshot(h: Hook, e: Event)
    requires Inv(h) && Enabled(h, e)
    ensures DataMatches(Step(h, e)) && RefusalShows(Step(h, e))
  {
  }

  lemma {:induction false} RunKeepsInv(h: Hook, events: seq<Event>)
    requires Inv(h) && Valid(h, events)
    ensures Inv(Run(h, events))
    decreases |events|
  {
    if events != [] {
      StepKeepsSound(h, events[0]);
      StepKeepsOne(h, events[0]);
      StepKeepsSnapshot(h, events[0]);
      RunKeepsInv(Step(h, events[0]), events[1..]);
    }
  }

  /** From mounting on, a poller that is neither cancelled nor refused has exactly one of a read in flight and
      an armed timer; no poller ever has two reads; at most one polls at all. */
  lemma AlwaysOneNextStep(key: Option<nat>, interval: nat, events: seq<Event>, i: nat, j: nat)
    requires Valid(Mounted(key, interval), events)
    requires i < |Run(Mounted(key, interval), events).pollers| && j < |Run(Mounted(key, interval), events).pollers|
    ensures var p, q := Run(Mounted(key, interval), events).pollers[i], Run(Mounted(key, interval), events).pollers[j];
            && p.inFlight <= 1
            && (p.active && !p.terminal ==> (p.inFlight == 1 <==> p.timer.None?))
            && (p.active && q.active ==> i == j)
            && (p.timer.Some? ==> p.timer.value == DelayAfter(p.interval, p.failures))
  {
    RunKeepsInv(Mounted(key, interval), events);
  }

  /** Whatever is shown was loaded for the key being rendered. */
  lemma ShownDataIsCurrent(key: Option<nat>, interval: nat, events: seq<Event>)
    requires Valid(Mounted(key, interval), events)
    ensures var h := Run(Mounted(key, interval), events);
            Shown(h).data.Some? ==> h.deps.key == Some(Shown(h).data.value.key)
  {
    RunKeepsInv(Mounted(key, interval), events);
  }

  /** Retry waits never shrink from one failure to the next, and stay within ten seconds. */
  lemma {:induction false} RetriesBackOff(interval: nat, failures: nat)
    ensures RetryDelay(interval, failures) <= RetryDelay(interval, failures + 1) <= MAX_DELAY_MS
    ensures failures < 4 && interval * Doublings(failures + 1) <= MAX_DELAY_MS ==>
              RetryDelay(interval, failures + 1) == 2 * RetryDelay(interval, failures)
    ensures RetryDelay(interval, failures) >= Min(interval, MAX_DELAY_MS)
  {
    assert interval * Doublings(failures) <= interval * Doublings(failures + 1);
    if failures < 4 {
      assert Doublings(failures + 1) == 2 * Doublings(failures);
      assert interval * Doublings(failures + 1) == 2 * (interval * Doublings(failures));
    }
    assert interval * Doublings(failures) >= interval;
  }

  // ---- Cancellation -------------------------------------------------------------------------------

  /** A cancelled poller stays cancelled, and an event of its own changes nothing that is shown. */
  lemma {:induction false} CancelledIsSilent(h: Hook, events: seq<Event>, i: nat)
    requires Inv(h) && Valid(h, events) && i < |h.pollers| && !h.pollers[i].active
    ensures i < |Run(h, events).pollers| && !Run(h, events).pollers[i].active
    ensures (forall k :: 0 <= k < |events| ==> Concerns(events[k], i)) ==> Shown(Run(h, events)) == Shown(h)
    decreases |events|
  {
    if events != [] {
      StepKeepsSound(h, events[0]);
      StepKeepsOne(h, events[0]);
      StepKeepsSnapshot(h, events[0]);
      CancelledIsSilent(Step(h, events[0]), events[1..], i);
      if forall k :: 0 <= k < |events| ==> Concerns(events[k], i) {
        assert Concerns(events[0], i);
        assert forall k :: 0 <= k < |events| - 1 ==> events[1..][k] == events[k + 1];
      }
    }
  }

  ghost predicate Concerns(e: Event, i: nat) {
    (e.Settle? || e.Deadline? || e.Fire? || e.Wake?) && e.poller == i
  }

  // ---- What is shown --------------------------------------------------------------------------------

  /** The shown value changes only by a success, a refusal or a new key; an outage keeps it. */
  ghost predicate Replaces(h: Hook, e: Event) {
    || (e.Render? && e.key != h.deps.key)
    || (e.Settle? && e.poller < |h.pollers| && h.pollers[e.poller].active
        && (e.outcome.Success? || Denied(h.pollers[e.poller], e.outcome) || Some(h.pollers[e.poller].key) != h.deps.key))
  }

  lemma {:induction false} OutageKeepsData(h: Hook, e: Event)
    requires Inv(h) && Enabled(h, e) && !Replaces(h, e)
    ensures Shown(Step(h, e)).data == Shown(h).data
  {
  }

  /** Over any run of such events the last value stays. */
  lemma {:induction false} LastDataStays(h: Hook, events: seq<Event>)
    requires Inv(h) && Valid(h, events) && Quiet(h, events)
    ensures Shown(Run(h, events)).data == Shown(h).data
    decreases |events|
  {
    if events != [] {
      OutageKeepsData(h, events[0]);
      StepKeepsSound(h, events[0]);
      StepKeepsOne(h, events[0]);
      StepKeepsSnapshot(h, events[0]);
      LastDataStays(Step(h, events[0]), events[1..]);
    }
  }

  ghost predicate Quiet(h: Hook, events: seq<Event>)
    requires Valid(h, events)
    decreases |events|
  {
    events == [] || (!Replaces(h, events[0]) && Quiet(Step(h, events[0]), events[1..]))
  }
}
