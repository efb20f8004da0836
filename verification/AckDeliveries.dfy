/** When a delivered acknowledgement confirms its order, and what aborts and failed writes take away. */
module AckDeliveries {
  import opened Ordered
  import opened ExecutionAcks
  import opened AckSafety
  import opened AckRuns

  /** The step drops every waiting action: an abort, or a send cut short by a failed write. */
  predicate Aborts(s: State, step: Step) {
    || step.Abort?
    || (step.Send? && s.status == Running && s.expiry.Some? && SendPending(s, step.outcomes).status == Paused)
  }

  predicate EverAborts(s: State, steps: seq<Step>)
    requires Valid(s, steps)
    decreases |steps|
  {
    steps != [] && (Aborts(s, steps[0]) || EverAborts(Apply(s, steps[0]), steps[1..]))
  }

  /** The steps neither lose message m nor deliver it. */
  predicate Carries(steps: seq<Step>, m: nat) {
    forall k :: 0 <= k < |steps| ==> steps[k] != Lose(m) && !(steps[k].Deliver? && steps[k].m == m)
  }

  /** The radio carries m; its action waits, or has been abandoned. */
  ghost predicate Carried(s: State, m: nat, intent: nat) {
    if m in s.pending then s.pending[m] == intent else m in s.abandoned
  }

  lemma {:induction false} SendAllCarries(s: State, due: seq<nat>, outcomes: seq<Outcome>, m: nat)
    requires Inv(s) && Ascending(due) && s.status == Running
    requires forall id :: id in due ==> id in s.results && Due(s, id)
    ensures var t := SendAll(s, due, outcomes);
            && s.abandoned <= t.abandoned
            && (m in s.pending ==>
                  if t.status == Running then m in t.pending && t.pending[m] == s.pending[m]
                  else m !in t.pending && m in t.abandoned)
            && (m !in s.pending && m < s.next ==> m !in t.pending)
    decreases |due|
  {
    if due != [] {
      var t := SendOne(s, due[0], Head(outcomes));
      FirstAttempt(s, due, outcomes, t);
      AttemptCarries(s, t, due[0], m);
      if t.status == Running {
        SendAllCarries(t, due[1..], Tail(outcomes), m);
      }
    }
  }

  lemma AttemptCarries(s: State, t: State, intent: nat, m: nat)
    requires intent in s.results && s.status == Running && Attempted(s, t, intent)
    ensures s.abandoned <= t.abandoned && t.next == s.next + 1
    ensures m in s.pending ==>
              if t.status == Running then m in t.pending && t.pending[m] == s.pending[m]
              else m !in t.pending && m in t.abandoned
    ensures m !in s.pending && m < s.next ==> m !in t.pending
  {
  }

  lemma CarriedWasSent(s: State, m: nat, intent: nat)
    requires Inv(s) && (m in s.pending || m in s.abandoned)
    ensures m < s.next && m !in s.heard
  {
    if m in s.pending {
      var i :| InFlightAt(s, m, i);
    } else {
      var i :| AbandonedAt(s, m, i);
    }
  }

  lemma SendCarries(s: State, outcomes: seq<Outcome>, m: nat, intent: nat)
    requires Inv(s) && Carried(s, m, intent)
    ensures var t := SendPending(s, outcomes);
            Carried(t, m, intent) && (m in t.pending <==> m in s.pending && !Aborts(s, Send(outcomes)))
  {
    CarriedWasSent(s, m, intent);
    if s.status == Running && s.results != map[] && !Settled(s) && s.expiry.Some? {
      SendAllCarries(s, DueIntents(s), outcomes, m);
    } else {
      UnsentCarries(s, outcomes);
    }
  }

  lemma UnsentCarries(s: State, outcomes: seq<Outcome>)
    requires s.status != Running || s.results == map[] || Settled(s) || s.expiry.None?
    ensures var t := SendPending(s, outcomes);
            t.pending == s.pending && t.abandoned == s.abandoned && !Aborts(s, Send(outcomes))
  {
  }

  lemma DeliverCarries(s: State, n: nat, atNs: nat, m: nat, intent: nat)
    requires Inv(s) && Enabled(s, Deliver(n, atNs)) && n != m && Carried(s, m, intent)
    ensures var t := Apply(s, Deliver(n, atNs)); Carried(t, m, intent) && (m in t.pending <==> m in s.pending)
  {
    if n in s.pending {
      DeliveryConfirms(s, n, atNs);
    } else {
      LateDeliveryOnlyMarks(s, n, atNs);
    }
  }

  /** No other step touches what waits or what is abandoned. */
  lemma QuietStep(s: State, step: Step)
    requires Enabled(s, step) && !step.Send? && !step.Deliver? && !step.Lose? && !step.Abort?
    ensures Apply(s, step).pending == s.pending && Apply(s, step).abandoned == s.abandoned
  {
  }

  lemma StepCarries(s: State, step: Step, m: nat, intent: nat)
    requires Inv(s) && Enabled(s, step) && Carried(s, m, intent)
    requires step != Lose(m) && !(step.Deliver? && step.m == m)
    ensures var t := Apply(s, step);
            Carried(t, m, intent) && (m in t.pending <==> m in s.pending && !Aborts(s, step))
  {
    match step
    case Send(outcomes) => SendCarries(s, outcomes, m, intent);
    case Deliver(n, atNs) => DeliverCarries(s, n, atNs, m, intent);
    case Lose(_) =>
    case Abort =>
    case _ => QuietStep(s, step);
  }

  lemma {:induction false} RunCarries(s: State, steps: seq<Step>, m: nat, intent: nat)
    requires Inv(s) && Valid(s, steps) && Carried(s, m, intent) && Carries(steps, m)
    ensures var t := Run(s, steps);
            Inv(t) && Carried(t, m, intent) && (m in t.pending <==> m in s.pending && !EverAborts(s, steps))
    decreases |steps|
  {
    if steps != [] {
      assert steps[0] != Lose(m) && !(steps[0].Deliver? && steps[0].m == m);
      StepCarries(s, steps[0], m, intent);
      ApplyKeepsInv(s, steps[0]);
      assert forall k :: 0 <= k < |steps| - 1 ==> steps[1..][k] == steps[k + 1];
      RunCarries(Apply(s, steps[0]), steps[1..], m, intent);
    }
  }

  /** The exact condition. Of an acknowledgement in flight that the radio delivers after any further steps,
      the log always shows the delivery; it confirms its order, at that tick, if and only if none of those
      steps was an abort. After an abort the delivery changes no order at all. */
  lemma DeliveryConfirmsUnlessAborted(s: State, steps: seq<Step>, m: nat, atNs: nat)
    requires Inv(s) && m in s.pending && Valid(s, steps) && Carries(steps, m)
    ensures var u := Run(s, steps);
            && Enabled(u, Deliver(m, atNs))
            && (var t, i := Apply(u, Deliver(m, atNs)), IndexOf(u.log, m);
                && i < |u.log| && |t.log| == |u.log| && t.log[i] == u.log[i].(deliveredNs := Some(atNs))
                && (if EverAborts(s, steps) then t.results == u.results && m !in t.heard
                    else && s.pending[m] in t.results && u.results[s.pending[m]].received.None?
                         && t.results[s.pending[m]].received == Some(CeilTick(atNs)) && m in t.heard))
  {
    RunCarries(s, steps, m, s.pending[m]);
    var u := Run(s, steps);
    if m in u.pending {
      DeliveryConfirms(u, m, atNs);
    } else {
      LateDeliveryOnlyMarks(u, m, atNs);
      CarriedWasSent(u, m, s.pending[m]);
    }
  }

  lemma AbandonedIsOverheard(s: State, m: nat, intent: nat, atNs: nat)
    requires Inv(s) && m in s.abandoned && m !in s.pending && intent in s.results && s.results[intent].received.None?
    requires exists i :: 0 <= i < |s.log| && s.log[i].message.id == m && IsAttempt(s.log[i], intent)
    ensures var t := Apply(s, Deliver(m, atNs)); Overheard(t, m, intent) && Inv(t)
  {
    var i :| 0 <= i < |s.log| && s.log[i].message.id == m && IsAttempt(s.log[i], intent);
    LateDeliveryOnlyMarks(s, m, atNs);
    ApplyKeepsInv(s, Deliver(m, atNs));
    IndexOfRecord(s.log, m, i);
    assert DeliveredAt(Apply(s, Deliver(m, atNs)), intent, i);
  }

  /** The failing run, from any state with an acknowledgement in flight: an abort, the game resumed, the
      delivery. The log shows the order acknowledged, the issuer never learns it, and a direct call of
      receive would still learn it. */
  lemma AbortHidesDelivery(s: State, m: nat, atNs: nat)
    requires Inv(s) && m in s.pending
    ensures var steps := [Abort, Resume, Deliver(m, atNs)];
            && Valid(s, steps)
            && (var t := Run(s, steps);
                && (exists i :: DeliveredAt(t, s.pending[m], i) && t.log[i].message.id == m)
                && Confirmation(t, s.pending[m]) == None
                && Overheard(t, m, s.pending[m])
                && Receive(t, m, s.pending[m]) != t)
  {
    var i :| InFlightAt(s, m, i);
    var u := Apply(Apply(s, Abort), Resume);
    assert u == Abandoned(s).(status := Running);
    ThreeSteps(s, Abort, Resume, Deliver(m, atNs));
    ApplyKeepsInv(s, Abort);
    ApplyKeepsInv(Apply(s, Abort), Resume);
    AbandonedIsOverheard(u, m, s.pending[m], atNs);
    ReceiveLearnsExactly(Apply(u, Deliver(m, atNs)), m, s.pending[m]);
  }

  lemma ErasedIsUnmarked(s: State, m: nat, i: nat)
    requires i < |s.log| && s.log[i].message.id == m && LogNumbered(s)
    ensures var t := EraseDelivery(s, m);
            && |t.log| == |s.log| && t.log[i].message.id == m && t.log[i].deliveredNs.None? && t.results == s.results
  {
    IndexOfRecord(s.log, m, i);
  }

  lemma DeliveredIsLogged(s: State, m: nat, atNs: nat)
    requires Inv(s) && m in s.pending
    ensures var u, i := Apply(s, Deliver(m, atNs)), IndexOf(s.log, m);
            && LogNumbered(u) && i < |u.log| && u.log[i].message.id == m && Confirmation(u, s.pending[m]).Some?
  {
    DeliveryConfirms(s, m, atNs);
    ApplyKeepsInv(s, Deliver(m, atNs));
  }

  /** The other failing run: once delivered, a failed write of the record's next transition leaves the order
      confirmed although its acknowledgement no longer shows as delivered. */
  lemma FailedWriteErasesDelivery(s: State, m: nat, atNs: nat)
    requires Inv(s) && m in s.pending
    ensures var steps := [Deliver(m, atNs), Erase(m)];
            && Valid(s, steps)
            && (var t, i := Run(s, steps), IndexOf(s.log, m);
                && Confirmation(t, s.pending[m]).Some?
                && i < |t.log| && t.log[i].message.id == m && t.log[i].deliveredNs.None?)
  {
    DeliveredIsLogged(s, m, atNs);
    var u := Apply(s, Deliver(m, atNs));
    ErasedIsUnmarked(u, m, IndexOf(s.log, m));
    OneStep(u, Erase(m));
    FirstStep(s, Deliver(m, atNs), [Erase(m)]);
    assert [Deliver(m, atNs)] + [Erase(m)] == [Deliver(m, atNs), Erase(m)];
  }

  lemma FirstStep(s: State, a: Step, rest: seq<Step>)
    requires Enabled(s, a) && Valid(Apply(s, a), rest)
    ensures Valid(s, [a] + rest) && Run(s, [a] + rest) == Run(Apply(s, a), rest)
  {
    assert ([a] + rest)[1..] == rest;
  }

  lemma OneStep(s: State, a: Step)
    requires Enabled(s, a)
    ensures Valid(s, [a]) && Run(s, [a]) == Apply(s, a)
  {
    FirstStep(s, a, []);
    assert [a] + [] == [a];
  }

  lemma ThreeSteps(s: State, a: Step, b: Step, c: Step)
    requires Enabled(s, a) && Enabled(Apply(s, a), b) && Enabled(Apply(Apply(s, a), b), c)
    ensures Valid(s, [a, b, c]) && Run(s, [a, b, c]) == Apply(Apply(Apply(s, a), b), c)
  {
    OneStep(Apply(Apply(s, a), b), c);
    FirstStep(Apply(s, a), b, [c]);
    FirstStep(s, a, [b] + [c]);
    assert [a] + ([b] + [c]) == [a, b, c];
  }

  /** Such states are reached: one result recorded and sent by a fresh game. */
  lemma SomethingIsInFlight() returns (s: State, steps: seq<Step>)
    ensures Fresh(s) && Valid(s, steps) && 0 in Run(s, steps).pending
  {
    s := State(Running, 0, Some(5), map[1 := 7], map[], map[], [], 0, map[], {});
    var result := OrderResult(3, 0);
    steps := [RecordStep(1, 8, 0, result), Send([Accepted])];
    var t := Apply(s, steps[0]);
    OneIsDue(t, 3);
    assert steps[1..] == [Send([Accepted])];
    assert SendAll(t, [3], [Accepted]) == SendAll(SendOne(t, 3, Accepted), [], []);
    assert Run(t, steps[1..]) == SendPending(t, [Accepted]);
  }

  lemma OneIsDue(t: State, intent: nat)
    requires t.results.Keys == {intent} && Due(t, intent)
    ensures DueIntents(t) == [intent] && !Settled(t)
  {
    assert (set id | id in t.results && Due(t, id)) == {intent};
    assert {intent} - {intent} == {};
    assert SortedKeys({intent}) == [Least({intent})] + SortedKeys({});
    assert !Closed(t, intent);
  }

  // ---- Undisturbed runs ---------------------------------------------------------------------

  /** No abort, and no failed write of a delivered record. */
  predicate Calm(s: State, steps: seq<Step>)
    requires Valid(s, steps)
    decreases |steps|
  {
    steps == [] || (!Aborts(s, steps[0]) && !steps[0].Erase? && Calm(Apply(s, steps[0]), steps[1..]))
  }

  /** Nothing is abandoned, and the acknowledgements shown delivered are those heard. */
  ghost predicate Told(s: State) {
    && s.abandoned == {}
    && (forall i :: 0 <= i < |s.log| && s.log[i].message.profile == AckProfile ==>
          (s.log[i].deliveredNs.Some? <==> s.log[i].message.id in s.heard))
  }

  lemma AttemptTold(s: State, t: State, intent: nat)
    requires Inv(s) && Told(s) && s.status == Running && intent in s.results && Attempted(s, t, intent) && t.status == Running
    ensures Told(t)
  {
    assert t.log == s.log + [t.log[|s.log|]];
    forall i | 0 <= i < |t.log| && t.log[i].message.profile == AckProfile
      ensures t.log[i].deliveredNs.Some? <==> t.log[i].message.id in t.heard
    {
      if i < |s.log| {
        assert s.log[i].message.id != s.next;
      }
    }
  }

  lemma StillRunning(s: State, due: seq<nat>, outcomes: seq<Outcome>)
    requires forall id :: id in due ==> id in s.results
    ensures SendAll(s, due, outcomes).status == Running ==> s.status == Running
  {
  }

  lemma {:induction false} SendAllTold(s: State, due: seq<nat>, outcomes: seq<Outcome>)
    requires Inv(s) && Told(s) && Ascending(due) && s.status == Running
    requires forall id :: id in due ==> id in s.results && Due(s, id)
    requires SendAll(s, due, outcomes).status == Running
    ensures Told(SendAll(s, due, outcomes))
    decreases |due|
  {
    if due != [] {
      var t := SendOne(s, due[0], Head(outcomes));
      FirstAttempt(s, due, outcomes, t);
      StillRunning(t, due[1..], Tail(outcomes));
      AttemptTold(s, t, due[0]);
      SendAllTold(t, due[1..], Tail(outcomes));
    }
  }

  lemma DeliverTold(s: State, m: nat, atNs: nat)
    requires Inv(s) && Told(s) && Enabled(s, Deliver(m, atNs))
    ensures Told(Apply(s, Deliver(m, atNs)))
  {
    DeliveryConfirms(s, m, atNs);
  }

  lemma SameLogTold(s: State, step: Step)
    requires Told(s) && Enabled(s, step) && !step.Send? && !step.Deliver? && !step.Abort? && !step.Erase?
    ensures Told(Apply(s, step))
  {
  }

  lemma StepTold(s: State, step: Step)
    requires Inv(s) && Told(s) && Enabled(s, step) && !Aborts(s, step) && !step.Erase?
    ensures Told(Apply(s, step))
  {
    match step
    case Send(outcomes) =>
      if s.status == Running && s.expiry.Some? {
        SendAllTold(s, DueIntents(s), outcomes);
      }
    case Deliver(m, atNs) => DeliverTold(s, m, atNs);
    case _ => SameLogTold(s, step);
  }

  /** In a run without aborts and failed writes, an order is confirmed if and only if the log shows one of
      its acknowledgements delivered. */
  lemma CalmConfirmationIsLogged(s: State, steps: seq<Step>, intent: nat)
    requires Fresh(s) && Valid(s, steps) && Calm(s, steps)
    ensures var t := Run(s, steps); Confirmation(t, intent).Some? <==> exists i :: DeliveredAt(t, intent, i)
  {
    FreshInv(s);
    RunKeepsInv(s, steps);
    CalmRunTold(s, steps);
    ConfirmationIsEarned(s, steps, intent);
    var t := Run(s, steps);
    assert forall i :: DeliveredAt(t, intent, i) <==> HeardAt(t, intent, i);
  }

  lemma {:induction false} CalmRunTold(s: State, steps: seq<Step>)
    requires Inv(s) && Told(s) && Valid(s, steps) && Calm(s, steps)
    ensures Told(Run(s, steps))
    decreases |steps|
  {
    if steps != [] {
      StepTold(s, steps[0]);
      ApplyKeepsInv(s, steps[0]);
      CalmRunTold(Apply(s, steps[0]), steps[1..]);
    }
  }
}
