/** What an order's issuer is shown while no acknowledgement has arrived, and whether one still can. */
module AckReceipts {
  import opened Ordered
  import opened ExecutionAcks
  import opened AckSafety
  import opened AckRuns
  import opened AckSettlement
  import opened AckDeliveries

  /** The receipt of an order whose command has been delivered to another terminal. */
  datatype Receipt = AwaitingAcknowledgement | Unconfirmed | Confirmed(executed: nat, received: nat, result: OrderResult)

  /** delivered is the radio tick at which the command arrived; over says that the mission is complete. */
  function Shown(s: State, intent: nat, delivered: Option<nat>, over: bool): (receipt: Receipt)
    ensures receipt.Confirmed? <==> Confirmation(s, intent).Some?
    ensures Confirmation(s, intent).None? && over && s.status == Paused ==> receipt == Unconfirmed
    ensures Confirmation(s, intent).None? && !(over && s.status == Paused) ==>
              (receipt == Unconfirmed <==> delivered.Some? && s.tick >= delivered.value + ConfirmationTimeout(s))
  {
    var confirmation := Confirmation(s, intent);
    if confirmation.Some? then Confirmed(confirmation.value.0, confirmation.value.1, confirmation.value.2)
    else if (over && s.status == Paused)
            || (delivered.Some? && SaturatingSub(s.tick, delivered.value) >= ConfirmationTimeout(s)) then Unconfirmed
    else AwaitingAcknowledgement
  }

  /** An acknowledgement is in flight; or one can still be sent, now or once the order has been executed. */
  predicate CanConfirm(s: State, intent: nat) {
    || InFlight(s, intent)
    || (s.expiry.Some? && (intent in s.results ==> s.results[intent].attempts < MAX_ATTEMPTS))
  }

  ghost predicate Unheard(s: State, intent: nat) {
    Confirmation(s, intent).None? && !CanConfirm(s, intent)
  }

  // ---- Nothing can be confirmed any more -----------------------------------------------------------

  lemma AttemptKeepsUnheard(s: State, t: State, other: nat, intent: nat)
    requires Unheard(s, intent) && other in s.results && other != intent && Attempted(s, t, other)
    ensures Unheard(t, intent)
  {
    forall m | m in t.pending ensures t.pending[m] != intent {
      if m in s.pending {
        assert t.pending[m] == s.pending[m];
      }
    }
  }

  lemma {:induction false} SendAllKeepsUnheard(s: State, due: seq<nat>, outcomes: seq<Outcome>, intent: nat)
    requires Inv(s) && Ascending(due) && Unheard(s, intent) && intent !in due
    requires forall id :: id in due ==> id in s.results && Due(s, id)
    ensures Unheard(SendAll(s, due, outcomes), intent)
    decreases |due|
  {
    if due != [] && s.status == Running {
      var t := SendOne(s, due[0], Head(outcomes));
      FirstAttempt(s, due, outcomes, t);
      AttemptKeepsUnheard(s, t, due[0], intent);
      SendAllKeepsUnheard(t, due[1..], Tail(outcomes), intent);
    }
  }

  lemma SendKeepsUnheard(s: State, outcomes: seq<Outcome>, intent: nat)
    requires Inv(s) && Unheard(s, intent)
    ensures Unheard(SendPending(s, outcomes), intent)
  {
    if s.status == Running && s.results != map[] && !Settled(s) && s.expiry.Some? {
      assert intent in DueIntents(s) <==> intent in s.results && Due(s, intent);
      SendAllKeepsUnheard(s, DueIntents(s), outcomes, intent);
    }
  }

  lemma DeliverKeepsUnheard(s: State, m: nat, atNs: nat, intent: nat)
    requires Inv(s) && Unheard(s, intent) && Enabled(s, Deliver(m, atNs))
    ensures Unheard(Apply(s, Deliver(m, atNs)), intent)
  {
    if m in s.pending {
      DeliveryConfirms(s, m, atNs);
    } else {
      LateDeliveryOnlyMarks(s, m, atNs);
    }
  }

  lemma QuietKeepsUnheard(s: State, step: Step, intent: nat)
    requires Unheard(s, intent) && Enabled(s, step) && !step.Send? && !step.Deliver?
    ensures Unheard(Apply(s, step), intent)
  {
  }

  lemma {:induction false} NeverConfirmed(s: State, steps: seq<Step>, intent: nat)
    requires Inv(s) && Unheard(s, intent) && Valid(s, steps)
    ensures Unheard(Run(s, steps), intent)
    decreases |steps|
  {
    if steps != [] {
      ApplyKeepsInv(s, steps[0]);
      if steps[0].Send? {
        SendKeepsUnheard(s, steps[0].outcomes, intent);
      } else if steps[0].Deliver? {
        DeliverKeepsUnheard(s, steps[0].m, steps[0].atNs, intent);
      } else {
        QuietKeepsUnheard(s, steps[0], intent);
      }
      NeverConfirmed(Apply(s, steps[0]), steps[1..], intent);
    }
  }

  // ---- A run that confirms ---------------------------------------------------------------------------

  lemma DeliveryHelps(s: State, intent: nat) returns (steps: seq<Step>)
    requires Inv(s) && InFlight(s, intent)
    ensures Valid(s, steps) && Confirmation(Run(s, steps), intent).Some?
  {
    var m :| m in s.pending && s.pending[m] == intent;
    DeliveryConfirms(s, m, 0);
    OneStep(s, Deliver(m, 0));
    steps := [Deliver(m, 0)];
  }

  /** The acknowledgement got out: it is in flight, or has arrived. */
  ghost predicate GotOut(s: State, intent: nat) {
    InFlight(s, intent) || Confirmation(s, intent).Some?
  }

  lemma OtherAttemptKeepsOut(s: State, t: State, other: nat, intent: nat)
    requires GotOut(s, intent) && other in s.results && other != intent && Attempted(s, t, other) && t.status == Running
    ensures GotOut(t, intent)
  {
    if InFlight(s, intent) {
      var m :| m in s.pending && s.pending[m] == intent;
      assert m in t.pending && t.pending[m] == intent;
    }
  }

  lemma AcceptedGetsOut(s: State, intent: nat)
    requires LogNumbered(s) && intent in s.results && s.results[intent].received.None?
    ensures GotOut(SendOne(s, intent, Accepted), intent) && SendOne(s, intent, Accepted).status == s.status
  {
    var t := SendOne(s, intent, Accepted);
    if s.results[intent].executor == s.results[intent].recipient {
      LocalReplyKnown(s, intent);
    } else {
      assert s.next in t.pending && t.pending[s.next] == intent;
    }
  }

  lemma {:induction false} SendAllGetsOut(s: State, due: seq<nat>, intent: nat)
    requires Inv(s) && Ascending(due) && s.status == Running && (intent in due || GotOut(s, intent))
    requires forall id :: id in due ==> id in s.results && Due(s, id)
    ensures GotOut(SendAll(s, due, []), intent)
    decreases |due|
  {
    if due != [] {
      var t := SendOne(s, due[0], Accepted);
      FirstAttempt(s, due, [], t);
      AcceptedGetsOut(s, due[0]);
      if due[0] != intent && GotOut(s, intent) {
        OtherAttemptKeepsOut(s, t, due[0], intent);
      }
      SendAllGetsOut(t, due[1..], intent);
    }
  }

  function Ticks(n: nat): seq<Step> {
    if n == 0 then [] else [Tick] + Ticks(n - 1)
  }

  lemma {:induction false} TicksPass(s: State, n: nat)
    ensures Valid(s, Ticks(n)) && Run(s, Ticks(n)) == s.(tick := s.tick + n)
    decreases n
  {
    if n > 0 {
      TicksPass(Apply(s, Tick), n - 1);
      FirstStep(s, Tick, Ticks(n - 1));
    }
  }

  lemma {:induction false} RunsChain(s: State, a: seq<Step>, b: seq<Step>)
    requires Valid(s, a) && Valid(Run(s, a), b)
    ensures Valid(s, a + b) && Run(s, a + b) == Run(Run(s, a), b)
    decreases |a|
  {
    if a == [] {
      assert a + b == b;
    } else {
      assert (a + b)[0] == a[0] && (a + b)[1..] == a[1..] + b;
      RunsChain(Apply(s, a[0]), a[1..], b);
    }
  }

  /** Resume, wait, send to a radio that accepts everything. */
  function WaitAndSend(wait: nat): seq<Step> {
    [Resume] + Ticks(wait) + [Send([])]
  }

  lemma WaitRuns(s: State, wait: nat)
    ensures var steps := [Resume] + Ticks(wait);
            Valid(s, steps) && Run(s, steps) == s.(status := Running, tick := s.tick + wait)
  {
    var u := s.(status := Running);
    TicksPass(u, wait);
    FirstStep(s, Resume, Ticks(wait));
    assert u.(tick := u.tick + wait) == s.(status := Running, tick := s.tick + wait);
  }

  lemma WaitAndSendRuns(s: State, wait: nat)
    ensures Valid(s, WaitAndSend(wait))
    ensures Run(s, WaitAndSend(wait)) == SendPending(s.(status := Running, tick := s.tick + wait), [])
  {
    var t := s.(status := Running, tick := s.tick + wait);
    WaitRuns(s, wait);
    OneStep(t, Send([]));
    RunsChain(s, [Resume] + Ticks(wait), [Send([])]);
  }

  lemma SendingHelps(s: State, intent: nat, wait: nat) returns (steps: seq<Step>)
    requires Inv(s) && s.expiry.Some? && intent in s.results && wait >= RETRY_TICKS
    requires s.results[intent].received.None? && s.results[intent].attempts < MAX_ATTEMPTS && !InFlight(s, intent)
    ensures Valid(s, steps) && GotOut(Run(s, steps), intent)
  {
    steps := WaitAndSend(wait);
    WaitAndSendRuns(s, wait);
    var t := s.(status := Running, tick := s.tick + wait);
    FewerPendingKeepsInv(s, t);
    DueAfterWaiting(s, t, intent);
    DueGetsOut(t, intent);
  }

  lemma DueGetsOut(t: State, intent: nat)
    requires Inv(t) && t.status == Running && t.expiry.Some? && intent in t.results && Due(t, intent)
    ensures GotOut(SendPending(t, []), intent)
  {
    assert !Closed(t, intent) && intent in DueIntents(t);
    SendAllGetsOut(t, DueIntents(t), intent);
  }

  lemma DueAfterWaiting(s: State, t: State, intent: nat)
    requires Inv(s) && t == s.(status := Running, tick := t.tick) && t.tick >= s.tick + RETRY_TICKS && intent in s.results
    requires s.results[intent].received.None? && s.results[intent].attempts < MAX_ATTEMPTS && !InFlight(s, intent)
    ensures Due(t, intent)
  {
    assert AckLogged(s, intent);
    assert InFlight(t, intent) == InFlight(s, intent);
  }

  lemma GotOutHelps(s: State, first: seq<Step>, intent: nat) returns (steps: seq<Step>)
    requires Inv(s) && Valid(s, first) && GotOut(Run(s, first), intent)
    ensures Valid(s, steps) && Confirmation(Run(s, steps), intent).Some?
  {
    steps := first;
    RunKeepsInv(s, first);
    if Confirmation(Run(s, first), intent).None? {
      var more := DeliveryHelps(Run(s, first), intent);
      RunsChain(s, first, more);
      steps := first + more;
    }
  }

  lemma ConfirmableRun(s: State, intent: nat) returns (steps: seq<Step>)
    requires Inv(s) && Confirmation(s, intent).None? && CanConfirm(s, intent)
    ensures Valid(s, steps) && Confirmation(Run(s, steps), intent).Some?
  {
    if InFlight(s, intent) {
      steps := DeliveryHelps(s, intent);
    } else if intent in s.results {
      var first := SendingHelps(s, intent, RETRY_TICKS);
      steps := GotOutHelps(s, first, intent);
    } else {
      var a, b := Edit(map[0 := 0]), RecordStep(0, 0, 0, OrderResult(intent, 0));
      var t := Apply(Apply(s, a), b);
      OneStep(Apply(s, a), b);
      FirstStep(s, a, [b]);
      ApplyKeepsInv(s, a);
      ApplyKeepsInv(Apply(s, a), b);
      assert InFlight(t, intent) == InFlight(s, intent);
      var more := SendingHelps(t, intent, RETRY_TICKS);
      RunsChain(s, [a] + [b], more);
      steps := GotOutHelps(s, [a] + [b] + more, intent);
    }
  }

  /** The exact condition. An order without a confirmation, whatever its receipt shows, can still be confirmed
      in some run if and only if an acknowledgement is in flight, or the profile exists and the order is not
      executed yet or has attempts left. */
  lemma ConfirmableExactly(s: State, intent: nat)
    requires Inv(s) && Confirmation(s, intent).None?
    ensures (exists steps :: Valid(s, steps) && Confirmation(Run(s, steps), intent).Some?) <==> CanConfirm(s, intent)
  {
    if CanConfirm(s, intent) {
      var steps := ConfirmableRun(s, intent);
    } else {
      forall steps | Valid(s, steps) ensures Confirmation(Run(s, steps), intent).None? {
        NeverConfirmed(s, steps, intent);
      }
    }
  }

  // ---- The issuer's clock ------------------------------------------------------------------------------

  lemma {:induction false} SendAllKeepsExpiry(s: State, due: seq<nat>, outcomes: seq<Outcome>)
    requires forall id :: id in due ==> id in s.results
    ensures SendAll(s, due, outcomes).expiry == s.expiry
    decreases |due|
  {
    if due != [] && s.status == Running {
      SendAllKeepsExpiry(SendOne(s, due[0], Head(outcomes)), due[1..], Tail(outcomes));
    }
  }

  lemma {:induction false} RunKeepsExpiry(s: State, steps: seq<Step>)
    requires Valid(s, steps)
    ensures Run(s, steps).expiry == s.expiry
    decreases |steps|
  {
    if steps != [] {
      if steps[0].Send? {
        SendAllKeepsExpiry(s, DueIntents(s), steps[0].outcomes);
      }
      RunKeepsExpiry(Apply(s, steps[0]), steps[1..]);
    }
  }

  lemma {:induction false} RoundsKeepExpiry(s: State, rounds: seq<Round>, lifetime: nat)
    requires RoundsValid(s, rounds, lifetime)
    ensures AfterRounds(s, rounds, lifetime).expiry == s.expiry
    decreases |rounds|
  {
    if rounds != [] {
      RunKeepsExpiry(Started(s), rounds[0].before);
      var u := Run(Started(s), rounds[0].before);
      SendAllKeepsExpiry(u, DueIntents(u), rounds[0].outcomes);
      RoundsKeepExpiry(AfterRound(s, rounds[0], lifetime), rounds[1..], lifetime);
    }
  }

  /** The timeout runs from the command's delivery, the attempts from the execution. If the first attempt was
      made so soon after the delivery that the delay and the failed ticks together stay within three times
      the smaller of the lifetime and the retry interval, then an order once shown as unconfirmed can never be
      confirmed, in any run. */
  lemma UnconfirmedIsFinal(s: State, rounds: seq<Round>, intent: nat, delivered: nat)
    requires Inv(s) && s.expiry.Some? && s.expiry.value >= 1
    requires s.expiry.value * MAX_ATTEMPTS + RETRY_TICKS * (MAX_ATTEMPTS - 1) <= U64_MAX
    requires RoundsValid(s, rounds, s.expiry.value)
    requires intent in s.results && s.results[intent].attempts == 1 && s.results[intent].last == Some(s.tick)
    requires delivered <= s.tick
    requires FailedTicks(s, rounds, s.expiry.value) + (s.tick - delivered) <= 3 * Min(s.expiry.value, 10)
    requires Shown(AfterRounds(s, rounds, s.expiry.value), intent, Some(delivered), false) == Unconfirmed
    ensures var t := AfterRounds(s, rounds, s.expiry.value);
            && !CanConfirm(t, intent)
            && forall steps :: Valid(t, steps) ==> Confirmation(Run(t, steps), intent).None?
  {
    var lifetime := s.expiry.value;
    var t := AfterRounds(s, rounds, lifetime);
    RoundsKeepExpiry(s, rounds, lifetime);
    RoundsKeepUp(s, rounds, lifetime, intent, s.tick, Max(RETRY_TICKS, lifetime), 0);
    SettlesInTime(s, rounds, lifetime, intent);
    forall steps | Valid(t, steps) ensures Confirmation(Run(t, steps), intent).None? {
      NeverConfirmed(t, steps, intent);
    }
  }
}
