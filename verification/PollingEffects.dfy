/** One run of the polling effect as an object: the variables its callbacks close over, updated in place and
    proved against module Polling. */
module PollingEffects {
  import opened Ordered
  import opened Polling
  import opened PollingSafety

  /** Nothing is armed and at most one read is in flight: how a sound poller stands once its timer is off. */
  ghost predicate Disarmed(p: Poller) {
    && p.timer.None? && p.inFlight == (if p.pending then 1 else 0)
    && (p.active && p.terminal ==> !p.pending) && (p.deadline ==> p.active && p.pending)
  }

  /** No later callback of this poller reads, arms a timer or publishes. */
  ghost predicate Silent(p: Poller) {
    && !p.active && !p.deadline && p.timer.None? && Poll(p) == p
    && (forall hidden :: Woken(p, hidden) == p)
    && (forall o :: Silenced(p, o))
  }

  ghost predicate Silenced(p: Poller, o: Outcome) {
    && Settled(p, o).timer.None? && !Settled(p, o).active
    && forall shown :: Published(p, o, shown) == shown
  }

  class Effects {
    const key: nat
    const interval: nat
    var active: bool
    var pending: bool
    var terminal: bool
    var failures: nat
    var timer: Option<nat>
    var deadline: bool
    var timedOut: bool
    ghost var inFlight: nat

    ghost function Model(): Poller
      reads this
    {
      Poller(key, interval, active, pending, terminal, failures, timer, deadline, timedOut, inFlight)
    }

    constructor (key: nat, interval: nat)
      ensures Model() == Started(key, interval) && Sound(Model())
    {
      this.key, this.interval, active, pending, terminal, failures := key, interval, true, true, false, 0;
      timer, deadline, timedOut, inFlight := None, true, false, 1;
    }

    /** Once its timer is off, the poller reads unless it was cancelled or refused, and never twice at a time. */
    method StartRead()
      modifies this
      ensures Model() == Poll(old(Model()))
      ensures old(Disarmed(Model())) ==> Disarmed(Model()) && Sound(Model())
      ensures active && !terminal ==> pending
      ensures old(Disarmed(Model())) ==> inFlight == if active && !terminal then 1 else old(inFlight)
    {
      if !active || pending || terminal {
        return;
      }
      pending, timedOut, deadline, inFlight := true, false, true, inFlight + 1;
    }

    /** The read ends: publish unless cancelled, and arm the next one unless refused for good. */
    method Finish(o: Outcome, before: Snapshot) returns (after: Snapshot)
      modifies this
      ensures Model() == Settled(old(Model()), o) && after == Published(old(Model()), o, before)
      ensures old(Sound(Model()) && pending) ==> Sound(Model())
    {
      var delay := interval;
      after := before;
      if active {
        if o.Success? {
          failures, after := 0, Snapshot(Some(key), Some(Loaded(key, o.value)), Live, false);
        } else {
          terminal := !timedOut && o.denied;
          delay := Min(interval * Doublings(failures), MAX_DELAY_MS);
          failures := failures + 1;
          after := Snapshot(Some(key), if terminal then None else if before.key == Some(key) then before.data else None,
                            if terminal then Unavailable else Reconnecting, true);
        }
      }
      deadline, pending, inFlight := false, false, if inFlight > 0 then inFlight - 1 else 0;
      if active && (o.Success? || !terminal) {
        timer := Some(delay);
      }
      if old(Sound(Model()) && pending) {
        SettledIsSound(old(Model()), o);
      }
    }

    /** Waking a poller that is neither cancelled nor refused leaves one read in flight and no timer, whether it
        was waiting or already reading; a page that stays hidden changes nothing. */
    method WakeUp(hidden: bool)
      modifies this
      ensures Model() == Woken(old(Model()), hidden)
      ensures old(Sound(Model())) ==> Sound(Model())
      ensures hidden ==> Model() == old(Model())
      ensures old(Sound(Model())) && !hidden && active && !terminal ==> inFlight == 1 && timer.None?
    {
      if old(Sound(Model())) {
        WokenIsSound(Model(), hidden);
      }
      if hidden || pending || terminal {
        return;
      }
      timer := None;
      StartRead();
    }

    /** From here on the poller is silent, whatever settles, fires or wakes later. */
    method Cancel()
      modifies this
      ensures Model() == Cancelled(old(Model())) && Silent(Model())
      ensures old(Sound(Model())) ==> Sound(Model())
    {
      if old(Sound(Model())) {
        WokenIsSound(Model(), true);
      }
      active, deadline, timer := false, false, None;
    }
  }
}
