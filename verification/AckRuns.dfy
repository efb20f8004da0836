/** Guarantees of the acknowledgement protocol over whole runs, in any interleaving of its steps. */
module AckRuns {
  import opened Ordered
  import opened ExecutionAcks
  import opened AckSafety

  /** At most four attempts at least ten radio ticks apart, never two in flight, in every state any
      run reaches; the counters stored for an order are those its log shows. */
  lemma AttemptsBoundedAndPaced(s: State, steps: seq<Step>, intent: nat)
    requires Fresh(s) && Valid(s, steps) && intent in Run(s, steps).results
    ensures var t := Run(s, steps); var ticks := SendTicks(t.log, intent);
            && |ticks| == t.results[intent].attempts <= 4
            && (forall i :: 0 < i < |ticks| ==> ticks[i] >= ticks[i - 1] + 10)
            && (forall m, n :: m in t.pending && n in t.pending && t.pending[m] == t.pending[n] ==> m == n)
            && (t.results[intent].received.Some? ==> !InFlight(t, intent))
  {
    FreshInv(s);
    RunKeepsInv(s, steps);
    var t := Run(s, steps);
    assert AckLogged(t, intent);
    if InFlight(t, intent) {
      var m :| m in t.pending && t.pending[m] == intent;
      var i :| InFlightAt(t, m, i);
    }
  }

  /** What a later state owes an earlier one: recorded results are never rewritten, sends already
      logged stay logged, and once an order is confirmed its tick and its sends are final. */
  ghost predicate Continues(s: State, t: State) {
    forall intent :: intent in s.results ==> OrderContinues(s, t, intent)
  }

  ghost predicate OrderContinues(s: State, t: State, intent: nat)
    requires intent in s.results
  {
    && intent in t.results
    && (var a, b := s.results[intent], t.results[intent];
        && b.issuer == a.issuer && b.executor == a.executor && b.recipient == a.recipient
        && b.executedTick == a.executedTick && b.result == a.result
        && a.attempts <= b.attempts
        && (a.received.Some? ==> b == a && SendTicks(t.log, intent) == SendTicks(s.log, intent)))
    && SendTicks(s.log, intent) <= SendTicks(t.log, intent)
  }

  lemma ContinuesTransitive(s: State, t: State, u: State)
    requires Continues(s, t) && Continues(t, u)
    ensures Continues(s, u)
  {
    forall intent | intent in s.results ensures OrderContinues(s, u, intent) {
      assert OrderContinues(s, t, intent) && OrderContinues(t, u, intent);
    }
  }

  lemma SameLogContinues(s: State, t: State)
    requires t.log == s.log
    requires forall intent :: intent in s.results ==> intent in t.results && t.results[intent] == s.results[intent]
    ensures Continues(s, t)
  {}

  lemma AttemptContinues(s: State, t: State, intent: nat)
    requires intent in s.results && s.results[intent].received.None? && Attempted(s, t, intent)
    ensures Continues(s, t)
  {
    assert t.log == s.log + [t.log[|s.log|]];
    forall other | other in s.results ensures OrderContinues(s, t, other) {
      SendTicksAppend(s.log, t.log[|s.log|], other);
    }
  }

  lemma {:induction false} SendAllContinues(s: State, due: seq<nat>, outcomes: seq<Outcome>)
    requires Inv(s) && Ascending(due)
    requires forall intent :: intent in due ==> intent in s.results && Due(s, intent)
    ensures Continues(s, SendAll(s, due, outcomes))
    decreases |due|
  {
    if due == [] || s.status == Paused {
      SameLogContinues(s, s);
    } else {
      var t := SendOne(s, due[0], Head(outcomes));
      SendOneKeepsInv(s, due[0], Head(outcomes));
      AttemptContinues(s, t, due[0]);
      OthersStayDue(s, t, due);
      SendAllContinues(t, due[1..], Tail(outcomes));
      ContinuesTransitive(s, t, SendAll(s, due, outcomes));
    }
  }

  ghost predicate LearnsAtMost(a: Ack, b: Ack) {
    b == a || (a.received.None? && b == a.(received := b.received))
  }

  lemma SameMessagesContinue(s: State, t: State)
    requires |t.log| == |s.log| && forall i :: 0 <= i < |s.log| ==> t.log[i].message == s.log[i].message
    requires forall intent :: intent in s.results ==> intent in t.results && LearnsAtMost(s.results[intent], t.results[intent])
    ensures Continues(s, t)
  {
    forall intent | intent in s.results ensures OrderContinues(s, t, intent) {
      SendTicksSameMessages(s.log, t.log, intent);
    }
  }

  lemma DeliverContinues(s: State, m: nat, atNs: nat)
    requires Inv(s) && Enabled(s, Deliver(m, atNs))
    ensures Continues(s, Apply(s, Deliver(m, atNs)))
  {
    if m in s.pending {
      DeliveryConfirms(s, m, atNs);
    } else {
      LateDeliveryOnlyMarks(s, m, atNs);
    }
    SameMessagesContinue(s, Apply(s, Deliver(m, atNs)));
  }

  lemma SendContinues(s: State, outcomes: seq<Outcome>)
    requires Inv(s)
    ensures Continues(s, SendPending(s, outcomes))
  {
    SendAllContinues(s, DueIntents(s), outcomes);
    SameLogContinues(s, s);
    SameLogContinues(s, s.(status := Paused));
  }

  lemma ForeignContinues(s: State, message: Message, deliveredNs: Option<nat>)
    requires Enabled(s, Foreign(message, deliveredNs))
    ensures Continues(s, Apply(s, Foreign(message, deliveredNs)))
  {
    var t := Apply(s, Foreign(message, deliveredNs));
    forall intent | intent in s.results ensures OrderContinues(s, t, intent) {
      SendTicksAppend(s.log, Record(message, deliveredNs), intent);
    }
  }

  lemma QuietContinues(s: State, step: Step)
    requires Inv(s) && Enabled(s, step) && !step.Send? && !step.Deliver? && !step.Foreign?
    ensures Continues(s, Apply(s, step))
  {
    if step.Erase? {
      SameMessagesContinue(s, Apply(s, step));
    } else {
      SameLogContinues(s, Apply(s, step));
    }
  }

  lemma ApplyContinues(s: State, step: Step)
    requires Inv(s) && Enabled(s, step)
    ensures Continues(s, Apply(s, step))
  {
    match step
    case Send(outcomes) => SendContinues(s, outcomes);
    case Deliver(m, atNs) => DeliverContinues(s, m, atNs);
    case Foreign(message, deliveredNs) => ForeignContinues(s, message, deliveredNs);
    case _ => QuietContinues(s, step);
  }

  /** None sent after receipt, and the received tick never changes, in every run from any state. */
  lemma {:induction false} RunContinues(s: State, steps: seq<Step>)
    requires Inv(s) && Valid(s, steps)
    ensures Continues(s, Run(s, steps))
    decreases |steps|
  {
    if steps == [] {
      SameLogContinues(s, s);
    } else {
      var t := Apply(s, steps[0]);
      ApplyKeepsInv(s, steps[0]);
      ApplyContinues(s, steps[0]);
      RunContinues(t, steps[1..]);
      ContinuesTransitive(s, t, Run(t, steps[1..]));
    }
  }

  /** The execution tick and result first recorded for an order in a run, if any. */
  function FirstRecorded(steps: seq<Step>, intent: nat): Option<(nat, OrderResult)> {
    if steps == [] then None
    else if steps[0].RecordStep? && steps[0].result.intent == intent
    then Some((steps[0].executedTick, steps[0].result))
    else FirstRecorded(steps[1..], intent)
  }

  lemma OnlyRecordingAdds(s: State, step: Step, intent: nat)
    requires Inv(s) && Enabled(s, step) && intent !in s.results
    ensures var t := Apply(s, step);
            if step.RecordStep? && step.result.intent == intent
            then intent in t.results && t.results[intent].executedTick == step.executedTick
                 && t.results[intent].result == step.result
            else intent !in t.results
  {
    match step
    case Send(outcomes) => SendAllKeys(s, DueIntents(s), outcomes);
    case Deliver(m, atNs) => DeliveryKeepsOrders(s, m, atNs);
    case _ =>
  }

  lemma DeliveryKeepsOrders(s: State, m: nat, atNs: nat)
    requires Inv(s) && Enabled(s, Deliver(m, atNs))
    ensures Apply(s, Deliver(m, atNs)).results.Keys == s.results.Keys
  {
    if m in s.pending {
      DeliveryConfirms(s, m, atNs);
    } else {
      LateDeliveryOnlyMarks(s, m, atNs);
    }
  }

  lemma {:induction false} SendAllKeys(s: State, due: seq<nat>, outcomes: seq<Outcome>)
    requires forall intent :: intent in due ==> intent in s.results
    ensures SendAll(s, due, outcomes).results.Keys == s.results.Keys
    decreases |due|
  {
    if due != [] && s.status == Running {
      var t := SendOne(s, due[0], Head(outcomes));
      assert t.results.Keys == s.results.Keys;
      SendAllKeys(t, due[1..], Tail(outcomes));
    }
  }

  lemma {:induction false} RunRecords(s: State, steps: seq<Step>, intent: nat)
    requires Inv(s) && Valid(s, steps) && intent !in s.results
    ensures var t := Run(s, steps);
            match FirstRecorded(steps, intent)
            case None => intent !in t.results
            case Some((executedTick, result)) =>
              intent in t.results && t.results[intent].executedTick == executedTick && t.results[intent].result == result
    decreases |steps|
  {
    if steps != [] {
      var t := Apply(s, steps[0]);
      ApplyKeepsInv(s, steps[0]);
      OnlyRecordingAdds(s, steps[0], intent);
      if intent in t.results {
        RunContinues(t, steps[1..]);
        assert OrderContinues(t, Run(t, steps[1..]), intent);
      } else {
        RunRecords(t, steps[1..], intent);
      }
    }
  }

  /** Knowledge is exactly what was heard: a run from a fresh game shows the issuer a confirmation if and
      only if some acknowledgement of that order was delivered while its action waited; and what it shows
      is then the first result the run recorded, at that delivery's tick. */
  lemma ConfirmationIsEarned(s: State, steps: seq<Step>, intent: nat)
    requires Fresh(s) && Valid(s, steps)
    ensures var t, first := Run(s, steps), FirstRecorded(steps, intent);
            && (Confirmation(t, intent).Some? <==> exists i :: HeardAt(t, intent, i))
            && (forall i :: HeardAt(t, intent, i) ==>
                  first.Some?
                  && Confirmation(t, intent) == Some((first.value.0, CeilTick(t.heard[t.log[i].message.id]), first.value.1))
                  && t.log[i].message.executedTick == first.value.0 && t.log[i].message.result == first.value.1)
            && (forall i :: HeardAt(t, intent, i) && t.log[i].deliveredNs.Some? ==>
                  t.log[i].deliveredNs == Some(t.heard[t.log[i].message.id]))
  {
    FreshInv(s);
    RunKeepsInv(s, steps);
    RunRecords(s, steps, intent);
    var t := Run(s, steps);
    forall i | HeardAt(t, intent, i)
      ensures intent in t.results && t.results[intent].received == Some(CeilTick(t.heard[t.log[i].message.id]))
      ensures Matches(t.log[i].message, t.results[intent], intent)
    {
      assert t.log[i].message.intent == intent;
    }
  }

  predicate Records(steps: seq<Step>) {
    exists k :: 0 <= k < |steps| && steps[k].RecordStep?
  }

  lemma InFlightOpen(s: State, m: nat)
    requires Inv(s) && m in s.pending
    ensures s.pending[m] in s.results && !Closed(s, s.pending[m])
  {
    var i :| InFlightAt(s, m, i);
    assert InFlight(s, s.pending[m]);
  }

  lemma SettledNothingInFlight(s: State)
    requires Inv(s) && Settled(s)
    ensures s.pending == map[]
  {
    forall m | m in s.pending ensures false {
      InFlightOpen(s, m);
    }
  }

  /** Once every result is received or exhausted the protocol is over: until another result is
      recorded, no step of any run sends, loses or learns anything. */
  lemma {:induction false} SettledIsFinal(s: State, steps: seq<Step>)
    requires Inv(s) && Settled(s) && Valid(s, steps) && !Records(steps)
    ensures Settled(Run(s, steps))
    ensures Run(s, steps).results == s.results && Run(s, steps).pending == map[]
    ensures forall outcomes :: SendPending(s, outcomes) == s
    decreases |steps|
  {
    SettledNothingInFlight(s);
    if steps != [] {
      StepKeepsSettled(s, steps[0]);
      assert forall k :: 0 <= k < |steps[1..]| ==> steps[1..][k] == steps[k + 1];
      SettledIsFinal(Apply(s, steps[0]), steps[1..]);
    }
  }

  lemma SettledStepLearnsNothing(s: State, step: Step)
    requires Inv(s) && Settled(s) && s.pending == map[] && Enabled(s, step) && !step.RecordStep?
    ensures Apply(s, step).results == s.results && Apply(s, step).pending == map[]
  {
    if step.Deliver? {
      LateDeliveryOnlyMarks(s, step.m, step.atNs);
    }
  }

  lemma StepKeepsSettled(s: State, step: Step)
    requires Inv(s) && Settled(s) && Enabled(s, step) && !step.RecordStep?
    ensures var t := Apply(s, step); Inv(t) && Settled(t) && t.results == s.results && t.pending == map[]
  {
    var t := Apply(s, step);
    SettledNothingInFlight(s);
    ApplyKeepsInv(s, step);
    SettledStepLearnsNothing(s, step);
    forall intent | intent in t.results ensures Closed(t, intent) {
      assert Closed(s, intent);
    }
  }
}
