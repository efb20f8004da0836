/** How long an acknowledgement can stay unsettled, over every run of the radio clock. */
module AckSettlement {
  import opened Ordered
  import opened ExecutionAcks
  import opened AckSafety
  import opened AckRuns

  /** One radio tick: anything but another tick happens, in any order and with any number of extra
      sends, and then the tick's own send runs. */
  datatype Round = Round(before: seq<Step>, outcomes: seq<Outcome>)

  /** The clock moves only while the game runs; a game paused by a failed write is resumed first. */
  function Started(s: State): State {
    s.(tick := s.tick + 1, status := Running)
  }

  ghost predicate WithinTick(steps: seq<Step>) {
    forall k :: 0 <= k < |steps| ==> !steps[k].Tick?
  }

  /** No acknowledgement is still in flight lifetime ticks after it was created. */
  ghost predicate Expiring(s: State, lifetime: nat) {
    forall i :: 0 <= i < |s.log| && s.log[i].message.id in s.pending ==>
      s.tick < s.log[i].message.createdTick + lifetime
  }

  ghost predicate RoundValid(s: State, r: Round, lifetime: nat) {
    && WithinTick(r.before)
    && Valid(Started(s), r.before)
    && Expiring(Run(Started(s), r.before), lifetime)
  }

  ghost function AfterRound(s: State, r: Round, lifetime: nat): State
    requires RoundValid(s, r, lifetime)
  {
    SendPending(Run(Started(s), r.before), r.outcomes)
  }

  ghost predicate RoundsValid(s: State, rounds: seq<Round>, lifetime: nat)
    decreases |rounds|
  {
    rounds == []
    || (RoundValid(s, rounds[0], lifetime) && RoundsValid(AfterRound(s, rounds[0], lifetime), rounds[1..], lifetime))
  }

  ghost function AfterRounds(s: State, rounds: seq<Round>, lifetime: nat): State
    requires RoundsValid(s, rounds, lifetime)
    decreases |rounds|
  {
    if rounds == [] then s else AfterRounds(AfterRound(s, rounds[0], lifetime), rounds[1..], lifetime)
  }

  /** The ticks whose send was cut short: the profile is missing, a write failed, or a pause. */
  ghost function FailedTicks(s: State, rounds: seq<Round>, lifetime: nat): nat
    requires RoundsValid(s, rounds, lifetime)
    decreases |rounds|
  {
    if rounds == [] then 0
    else
      var t := AfterRound(s, rounds[0], lifetime);
      Failed(t) + FailedTicks(t, rounds[1..], lifetime)
  }

  function Failed(s: State): nat {
    if s.status == Paused then 1 else 0
  }

  function Spent(attempts: nat, gap: nat): nat {
    if attempts == 0 then 0 else gap + Spent(attempts - 1, gap)
  }

  /** An order first attempted at tick first keeps up: its attempt number n + 1 comes at most n gaps
      after the first, plus one tick for each failed one; and the next is not yet overdue. */
  ghost predicate KeepsUp(s: State, intent: nat, first: nat, gap: nat, failed: nat) {
    && intent in s.results
    && (var ack := s.results[intent];
        ack.received.None? ==>
          && ack.last.Some? && 1 <= ack.attempts <= MAX_ATTEMPTS
          && ack.last.value <= first + Spent(ack.attempts - 1, gap) + failed)
  }

  ghost predicate NotOverdue(s: State, intent: nat, first: nat, gap: nat, failed: nat) {
    intent in s.results && s.results[intent].received.None? && s.results[intent].attempts < MAX_ATTEMPTS ==>
      s.tick <= first + Spent(s.results[intent].attempts, gap) + failed
  }

  lemma AttemptKeepsUp(s: State, t: State, sent: nat, intent: nat, first: nat, gap: nat, failed: nat)
    requires sent in s.results && s.results[sent].received.None? && s.results[sent].attempts < MAX_ATTEMPTS
    requires Attempted(s, t, sent)
    requires KeepsUp(s, intent, first, gap, failed) && NotOverdue(s, intent, first, gap, failed)
    ensures KeepsUp(t, intent, first, gap, failed) && NotOverdue(t, intent, first, gap, failed)
  {
    if sent != intent {
      assert t.results[intent] == s.results[intent];
    }
  }

  lemma FirstAttemptKeepsUp(s: State, due: seq<nat>, outcomes: seq<Outcome>, t: State, intent: nat, first: nat, gap: nat, failed: nat)
    requires Inv(s) && s.status == Running && due != [] && Ascending(due)
    requires forall id :: id in due ==> id in s.results && Due(s, id)
    requires t == SendOne(s, due[0], Head(outcomes))
    requires KeepsUp(s, intent, first, gap, failed) && NotOverdue(s, intent, first, gap, failed)
    ensures KeepsUp(t, intent, first, gap, failed) && NotOverdue(t, intent, first, gap, failed) && t.tick == s.tick
  {
    FirstAttempt(s, due, outcomes, t);
    AttemptKeepsUp(s, t, due[0], intent, first, gap, failed);
  }

  lemma {:induction false} SendAllKeepsUp(s: State, due: seq<nat>, outcomes: seq<Outcome>, intent: nat, first: nat, gap: nat, failed: nat)
    requires Inv(s) && Ascending(due)
    requires forall id :: id in due ==> id in s.results && Due(s, id)
    requires KeepsUp(s, intent, first, gap, failed) && NotOverdue(s, intent, first, gap, failed)
    ensures var t := SendAll(s, due, outcomes);
            KeepsUp(t, intent, first, gap, failed) && NotOverdue(t, intent, first, gap, failed) && t.tick == s.tick
    decreases |due|
  {
    if due != [] && s.status == Running {
      var t := SendOne(s, due[0], Head(outcomes));
      FirstAttempt(s, due, outcomes, t);
      FirstAttemptKeepsUp(s, due, outcomes, t, intent, first, gap, failed);
      SendAllKeepsUp(t, due[1..], Tail(outcomes), intent, first, gap, failed);
    }
  }

  lemma FirstAttemptTouches(s: State, due: seq<nat>, outcomes: seq<Outcome>, t: State, intent: nat)
    requires Inv(s) && s.status == Running && due != [] && Ascending(due) && intent in s.results
    requires forall id :: id in due ==> id in s.results && Due(s, id)
    requires t == SendOne(s, due[0], Head(outcomes))
    ensures intent in t.results && t.tick == s.tick
    ensures if intent == due[0]
            then t.results[intent].last == Some(s.tick) && t.results[intent].attempts == s.results[intent].attempts + 1
            else t.results[intent] == s.results[intent]
  {
    FirstAttempt(s, due, outcomes, t);
  }

  /** A send that is not cut short attempts every due order at this tick, and touches no other. */
  lemma {:induction false} SendAllAttempts(s: State, due: seq<nat>, outcomes: seq<Outcome>, intent: nat)
    requires Inv(s) && Ascending(due) && intent in s.results
    requires forall id :: id in due ==> id in s.results && Due(s, id)
    ensures var t := SendAll(s, due, outcomes);
            && intent in t.results
            && (intent !in due ==> t.results[intent] == s.results[intent])
            && (intent in due && t.status == Running ==>
                  t.results[intent].last == Some(s.tick) && t.results[intent].attempts == s.results[intent].attempts + 1)
    decreases |due|
  {
    if due != [] && s.status == Running {
      var t := SendOne(s, due[0], Head(outcomes));
      FirstAttempt(s, due, outcomes, t);
      FirstAttemptTouches(s, due, outcomes, t, intent);
      SendAllAttempts(t, due[1..], Tail(outcomes), intent);
    }
  }

  /** A delivery leaves an order it does not confirm as it was. */
  lemma DeliverTouches(s: State, m: nat, atNs: nat, intent: nat)
    requires Inv(s) && Enabled(s, Deliver(m, atNs)) && intent in s.results
    ensures var t := Apply(s, Deliver(m, atNs));
            && t.tick == s.tick && intent in t.results
            && (t.results[intent].received.None? ==> t.results[intent] == s.results[intent])
  {
    if m in s.pending {
      DeliveryConfirms(s, m, atNs);
    } else {
      LateDeliveryOnlyMarks(s, m, atNs);
    }
  }

  lemma DeliverKeepsUp(s: State, m: nat, atNs: nat, intent: nat, first: nat, gap: nat, failed: nat)
    requires Inv(s) && Enabled(s, Deliver(m, atNs))
    requires KeepsUp(s, intent, first, gap, failed) && NotOverdue(s, intent, first, gap, failed)
    ensures var t := Apply(s, Deliver(m, atNs));
            KeepsUp(t, intent, first, gap, failed) && NotOverdue(t, intent, first, gap, failed) && t.tick == s.tick
  {
    DeliverTouches(s, m, atNs, intent);
  }

  lemma StepKeepsUp(s: State, step: Step, intent: nat, first: nat, gap: nat, failed: nat)
    requires Inv(s) && Enabled(s, step) && !step.Tick?
    requires KeepsUp(s, intent, first, gap, failed) && NotOverdue(s, intent, first, gap, failed)
    ensures var t := Apply(s, step);
            KeepsUp(t, intent, first, gap, failed) && NotOverdue(t, intent, first, gap, failed) && t.tick == s.tick
  {
    match step
    case Send(outcomes) => SendAllKeepsUp(s, DueIntents(s), outcomes, intent, first, gap, failed);
    case Deliver(m, atNs) => DeliverKeepsUp(s, m, atNs, intent, first, gap, failed);
    case _ =>
  }

  lemma {:induction false} StepsKeepUp(s: State, steps: seq<Step>, intent: nat, first: nat, gap: nat, failed: nat)
    requires Inv(s) && WithinTick(steps) && Valid(s, steps)
    requires KeepsUp(s, intent, first, gap, failed) && NotOverdue(s, intent, first, gap, failed)
    ensures var t := Run(s, steps);
            KeepsUp(t, intent, first, gap, failed) && NotOverdue(t, intent, first, gap, failed) && t.tick == s.tick
    decreases |steps|
  {
    if steps != [] {
      StepKeepsUp(s, steps[0], intent, first, gap, failed);
      ApplyKeepsInv(s, steps[0]);
      StepsKeepUp(Apply(s, steps[0]), steps[1..], intent, first, gap, failed);
    }
  }

  /** An order with attempts left that is not due was attempted less than a gap ago. */
  lemma NotDueIsRecent(s: State, intent: nat, lifetime: nat)
    requires Inv(s) && Expiring(s, lifetime)
    requires intent in s.results && !Due(s, intent)
    requires s.results[intent].received.None? && s.results[intent].attempts < MAX_ATTEMPTS
    ensures s.results[intent].last.Some?
    ensures s.tick < s.results[intent].last.value + Max(RETRY_TICKS, lifetime)
  {
    assert AckLogged(s, intent);
    if InFlight(s, intent) {
      var m :| m in s.pending && s.pending[m] == intent;
      var i :| InFlightAt(s, m, i);
    }
  }

  /** After a send that leaves the game running, an order is untouched exactly if it was not due. */
  lemma SendReachesDue(s: State, outcomes: seq<Outcome>, intent: nat)
    requires Inv(s) && intent in s.results && s.status == Running && SendPending(s, outcomes).status == Running
    ensures var t := SendPending(s, outcomes);
            && intent in t.results
            && (if Due(s, intent)
                then t.results[intent].attempts == s.results[intent].attempts + 1 && t.results[intent].last == Some(s.tick)
                else t.results[intent] == s.results[intent])
  {
    if Settled(s) {
      assert Closed(s, intent);
    } else {
      assert intent in DueIntents(s) <==> Due(s, intent);
      SendAllAttempts(s, DueIntents(s), outcomes, intent);
    }
  }

  /** The tick's own send: the next attempt is on time, or the tick counts as failed. */
  lemma LastSendKeepsUp(u: State, outcomes: seq<Outcome>, lifetime: nat, intent: nat, first: nat, gap: nat, failed: nat)
    requires Inv(u) && Expiring(u, lifetime) && gap == Max(RETRY_TICKS, lifetime)
    requires KeepsUp(u, intent, first, gap, failed) && NotOverdue(u, intent, first, gap, failed)
    ensures var t := SendPending(u, outcomes);
            var nowFailed := failed + Failed(t);
            NotOverdue(Started(t), intent, first, gap, nowFailed)
  {
    var t := SendPending(u, outcomes);
    StepKeepsUp(u, Send(outcomes), intent, first, gap, failed);
    if t.status == Running && t.results[intent].received.None? && t.results[intent].attempts < MAX_ATTEMPTS {
      SendReachesDue(u, outcomes, intent);
      if !Due(u, intent) {
        NotDueIsRecent(u, intent, lifetime);
      }
    }
  }

  ghost predicate OnTrack(s: State, intent: nat, first: nat, gap: nat, failed: nat) {
    Inv(s) && KeepsUp(s, intent, first, gap, failed) && NotOverdue(Started(s), intent, first, gap, failed)
  }

  lemma RoundKeepsUp(s: State, r: Round, lifetime: nat, intent: nat, first: nat, gap: nat, failed: nat)
    requires RoundValid(s, r, lifetime) && gap == Max(RETRY_TICKS, lifetime)
    requires OnTrack(s, intent, first, gap, failed)
    ensures var t := AfterRound(s, r, lifetime);
            OnTrack(t, intent, first, gap, failed + Failed(t)) && t.tick == s.tick + 1
  {
    FewerPendingKeepsInv(s, Started(s));
    RunKeepsInv(Started(s), r.before);
    StepsKeepUp(Started(s), r.before, intent, first, gap, failed);
    var u := Run(Started(s), r.before);
    ApplyKeepsInv(u, Send(r.outcomes));
    StepKeepsUp(u, Send(r.outcomes), intent, first, gap, failed);
    LastSendKeepsUp(u, r.outcomes, lifetime, intent, first, gap, failed);
  }

  lemma {:induction false} RoundsKeepUp(s: State, rounds: seq<Round>, lifetime: nat, intent: nat, first: nat, gap: nat, failed: nat)
    requires RoundsValid(s, rounds, lifetime) && gap == Max(RETRY_TICKS, lifetime)
    requires OnTrack(s, intent, first, gap, failed)
    ensures var t := AfterRounds(s, rounds, lifetime);
            && t.tick == s.tick + |rounds|
            && OnTrack(t, intent, first, gap, failed + FailedTicks(s, rounds, lifetime))
    decreases |rounds|
  {
    if rounds != [] {
      RoundKeepsUp(s, rounds[0], lifetime, intent, first, gap, failed);
      RoundsKeepUp(AfterRound(s, rounds[0], lifetime), rounds[1..], lifetime, intent, first, gap,
                   failed + Failed(AfterRound(s, rounds[0], lifetime)));
    }
  }

  /** After the last send of a round nothing is in flight beyond its lifetime. */
  lemma {:induction false} LastRoundExpires(s: State, rounds: seq<Round>, lifetime: nat)
    requires Inv(s) && RoundsValid(s, rounds, lifetime) && rounds != [] && lifetime >= 1
    ensures Expiring(AfterRounds(s, rounds, lifetime), lifetime)
    decreases |rounds|
  {
    var t := AfterRound(s, rounds[0], lifetime);
    FewerPendingKeepsInv(s, Started(s));
    RunKeepsInv(Started(s), rounds[0].before);
    var u := Run(Started(s), rounds[0].before);
    ApplyKeepsInv(u, Send(rounds[0].outcomes));
    if |rounds| == 1 {
      SendKeepsExpiring(u, rounds[0].outcomes, lifetime);
    } else {
      LastRoundExpires(t, rounds[1..], lifetime);
    }
  }

  lemma AttemptKeepsExpiring(s: State, t: State, intent: nat, lifetime: nat)
    requires Expiring(s, lifetime) && lifetime >= 1 && intent in s.results && Attempted(s, t, intent)
    requires LogNumbered(s)
    ensures Expiring(t, lifetime)
  {
    forall i | 0 <= i < |t.log| && t.log[i].message.id in t.pending
      ensures t.tick < t.log[i].message.createdTick + lifetime
    {
      if i < |s.log| {
        assert t.log[i] == t.log[..|s.log|][i];
        assert s.log[i].message.id != s.next;
      }
    }
  }

  lemma {:induction false} SendAllKeepsExpiring(s: State, due: seq<nat>, outcomes: seq<Outcome>, lifetime: nat)
    requires Inv(s) && Ascending(due) && Expiring(s, lifetime) && lifetime >= 1
    requires forall id :: id in due ==> id in s.results && Due(s, id)
    ensures Expiring(SendAll(s, due, outcomes), lifetime)
    decreases |due|
  {
    if due != [] && s.status == Running {
      var t := SendOne(s, due[0], Head(outcomes));
      FirstAttempt(s, due, outcomes, t);
      AttemptKeepsExpiring(s, t, due[0], lifetime);
      SendAllKeepsExpiring(t, due[1..], Tail(outcomes), lifetime);
    }
  }

  lemma SendKeepsExpiring(s: State, outcomes: seq<Outcome>, lifetime: nat)
    requires Inv(s) && Expiring(s, lifetime) && lifetime >= 1
    ensures Expiring(SendPending(s, outcomes), lifetime)
  {
    SendAllKeepsExpiring(s, DueIntents(s), outcomes, lifetime);
  }

  /** The settlement bound. Start where an order has just been attempted for the first time, run the
      radio clock for at least 3 * max(10, lifetime) + lifetime ticks plus one for every failed tick,
      in any way the steps allow: the order is then received, or exhausted with nothing in flight. */
  lemma {:induction false} SettlesInTime(s: State, rounds: seq<Round>, lifetime: nat, intent: nat)
    requires Inv(s) && RoundsValid(s, rounds, lifetime) && lifetime >= 1
    requires intent in s.results && s.results[intent].attempts == 1 && s.results[intent].last == Some(s.tick)
    requires |rounds| >= 3 * Max(10, lifetime) + lifetime + FailedTicks(s, rounds, lifetime)
    ensures var t := AfterRounds(s, rounds, lifetime); intent in t.results && Closed(t, intent)
  {
    var gap := Max(RETRY_TICKS, lifetime);
    RoundsKeepUp(s, rounds, lifetime, intent, s.tick, gap, 0);
    LastRoundExpires(s, rounds, lifetime);
    LateIsClosed(AfterRounds(s, rounds, lifetime), lifetime, intent, s.tick, gap, FailedTicks(s, rounds, lifetime));
  }

  lemma LateIsClosed(t: State, lifetime: nat, intent: nat, first: nat, gap: nat, failed: nat)
    requires OnTrack(t, intent, first, gap, failed) && Expiring(t, lifetime)
    requires t.tick >= first + 3 * gap + lifetime + failed
    ensures intent in t.results && Closed(t, intent)
  {
    var ack := t.results[intent];
    if ack.received.None? {
      LateIsExhausted(ack.attempts, gap, t.tick, first + failed);
      forall m | m in t.pending ensures t.pending[m] != intent {
        LateNotInFlight(t, lifetime, intent, first + 3 * gap + failed, m);
      }
    }
  }

  lemma LateIsExhausted(attempts: nat, gap: nat, tick: nat, from: nat)
    requires 1 <= attempts <= MAX_ATTEMPTS && tick >= from + 3 * gap
    ensures attempts < MAX_ATTEMPTS ==> tick + 1 > from + Spent(attempts, gap)
    ensures Spent(attempts - 1, gap) <= 3 * gap
  {
    SpentUnfolded(gap);
  }

  lemma LateNotInFlight(t: State, lifetime: nat, intent: nat, latest: nat, m: nat)
    requires PendingLogged(t) && Expiring(t, lifetime) && m in t.pending && intent in t.results
    requires t.results[intent].last.Some? && t.results[intent].last.value <= latest && t.tick >= latest + lifetime
    ensures t.pending[m] != intent
  {
    var i :| InFlightAt(t, m, i);
  }

  lemma SpentUnfolded(gap: nat)
    ensures Spent(0, gap) == 0 && Spent(1, gap) == gap && Spent(2, gap) == 2 * gap && Spent(3, gap) == 3 * gap
  {
    assert Spent(2, gap) == gap + Spent(1, gap);
    assert Spent(3, gap) == gap + Spent(2, gap);
  }

  /** confirmation_timeout covers the worst case. If acknowledgements leave within the profile's
      lifetime E, an order is settled by the timeout after its first attempt in every run, even one
      in which up to 3 * min(E, 10) ticks failed. (The product must not reach the 64-bit ceiling.) */
  lemma {:induction false} TimeoutCoversWorstCase(s: State, rounds: seq<Round>, intent: nat)
    requires Inv(s) && s.expiry.Some? && s.expiry.value >= 1
    requires s.expiry.value * MAX_ATTEMPTS + RETRY_TICKS * (MAX_ATTEMPTS - 1) <= U64_MAX
    requires RoundsValid(s, rounds, s.expiry.value)
    requires intent in s.results && s.results[intent].attempts == 1 && s.results[intent].last == Some(s.tick)
    requires FailedTicks(s, rounds, s.expiry.value) <= 3 * Min(s.expiry.value, 10)
    requires |rounds| >= ConfirmationTimeout(s)
    ensures var t := AfterRounds(s, rounds, s.expiry.value); intent in t.results && Closed(t, intent)
  {
    SettlesInTime(s, rounds, s.expiry.value, intent);
  }
}
