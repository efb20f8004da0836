/** When a report the log shows delivered has reached its recipient. */
module ImpactDeliveries {
  import opened Ordered
  import opened ImpactReports
  import opened ImpactSafety

  /** The step drops every waiting action: an abort, or a pass cut short by a failed write. */
  predicate Aborts(s: State, step: Step) {
    || step.Abort?
    || (step.Send? && s.status == Running && s.profile && SendReports(s, step.outcomes).status == Paused)
  }

  predicate EverAborts(s: State, steps: seq<Step>)
    requires Valid(s, steps)
    decreases |steps|
  {
    steps != [] && (Aborts(s, steps[0]) || EverAborts(Apply(s, steps[0]), steps[1..]))
  }

  /** The steps neither lose message m nor deliver it. */
  predicate Carries(steps: seq<Step>, m: nat) {
    forall k :: 0 <= k < |steps| ==> steps[k] != Lose(m) && steps[k] != Deliver(m)
  }

  /** The radio carries m; its action waits, or has been abandoned. */
  ghost predicate Carried(s: State, m: nat, a: Awaited, key: Key) {
    && (if m in s.pending then s.pending[m] == a else m in s.abandoned)
    && (exists i :: RecordOf(s, m, key, i))
  }

  ghost predicate RecordOf(s: State, m: nat, key: Key, i: int) {
    0 <= i < |s.log| && s.log[i].id == m && s.log[i].impact && s.log[i].key == key
  }

  lemma SendOneCarries(s: State, item: Item, outcome: Outcome, m: nat, a: Awaited, key: Key)
    requires item.route.role in s.terminals && s.status == Running && m < s.next && Carried(s, m, a, key)
    ensures var t := SendOne(s, item, outcome);
            Carried(t, m, a, key) && m < t.next && (m in t.pending <==> m in s.pending && t.status == Running)
  {
    var t := SendOne(s, item, outcome);
    var i :| RecordOf(s, m, key, i);
    assert RecordOf(t, m, key, i);
  }

  lemma {:induction false} SendAllCarries(s: State, items: seq<Item>, outcomes: seq<Outcome>, m: nat, a: Awaited, key: Key)
    requires Known(items, s.terminals) && s.status == Running && m < s.next && Carried(s, m, a, key)
    ensures var t := SendAll(s, items, outcomes);
            Carried(t, m, a, key) && (m in t.pending <==> m in s.pending && t.status == Running)
    decreases |items|
  {
    if items != [] {
      assert items[0] in items;
      var t, left := SendOne(s, items[0], Head(outcomes)), if Due(s, items[0]) then Tail(outcomes) else outcomes;
      SendOneCarries(s, items[0], Head(outcomes), m, a, key);
      if t.status == Running {
        SendAllCarries(t, items[1..], left, m, a, key);
      }
    }
  }

  lemma DeliverCarries(s: State, n: nat, m: nat, a: Awaited, key: Key)
    requires Inv(s) && Enabled(s, Deliver(n)) && n != m && Carried(s, m, a, key)
    ensures var t := Apply(s, Deliver(n)); Carried(t, m, a, key) && (m in t.pending <==> m in s.pending)
  {
    var i :| RecordOf(s, m, key, i);
    MarkPointwise(s.log, n, true);
    assert RecordOf(Apply(s, Deliver(n)), m, key, i);
  }

  lemma OtherCarries(s: State, step: Step, m: nat, a: Awaited, key: Key)
    requires Enabled(s, step) && !step.Send? && !step.Deliver? && step != Lose(m) && Carried(s, m, a, key)
    ensures var t := Apply(s, step);
            Carried(t, m, a, key) && (m in t.pending <==> m in s.pending && !Aborts(s, step))
  {
    var i :| RecordOf(s, m, key, i);
    if step.Erase? {
      MarkPointwise(s.log, step.m, false);
    }
    assert RecordOf(Apply(s, step), m, key, i);
  }

  lemma StepCarries(s: State, step: Step, m: nat, a: Awaited, key: Key)
    requires Inv(s) && Enabled(s, step) && Carried(s, m, a, key) && step != Lose(m) && step != Deliver(m)
    ensures var t := Apply(s, step);
            Carried(t, m, a, key) && (m in t.pending <==> m in s.pending && !Aborts(s, step))
  {
    match step
    case Send(outcomes) =>
      PastIsLogged(s);
      ItemsKnown(s.routes, s.terminals, s.reports);
      if s.status == Running {
        SendAllCarries(s, Items(s.routes, s.terminals, s.reports), outcomes, m, a, key);
      }
      var i :| RecordOf(s, m, key, i);
      assert RecordOf(s.(status := Paused), m, key, i);
    case Deliver(n) => DeliverCarries(s, n, m, a, key);
    case _ => OtherCarries(s, step, m, a, key);
  }

  lemma {:induction false} RunCarries(s: State, steps: seq<Step>, m: nat, a: Awaited, key: Key)
    requires Inv(s) && Valid(s, steps) && Carried(s, m, a, key) && Carries(steps, m)
    ensures var t := Run(s, steps);
            Inv(t) && Carried(t, m, a, key) && (m in t.pending <==> m in s.pending && !EverAborts(s, steps))
    decreases |steps|
  {
    if steps != [] {
      assert steps[0] != Lose(m) && steps[0] != Deliver(m);
      StepCarries(s, steps[0], m, a, key);
      ApplyKeepsInv(s, steps[0]);
      assert forall k :: 0 <= k < |steps| - 1 ==> steps[1..][k] == steps[k + 1];
      RunCarries(Apply(s, steps[0]), steps[1..], m, a, key);
    }
  }

  /** The exact condition. A report in flight that the radio delivers after any further steps counts as
      delivered from then on; its recipient learns it by that if and only if none of those steps was an
      abort. */
  lemma DeliveryTellsUnlessAborted(s: State, steps: seq<Step>, m: nat, i: nat)
    requires Inv(s) && m in s.pending && AwaitsRecord(s, m, i) && Valid(s, steps) && Carries(steps, m)
    ensures var u := Run(s, steps);
            && Enabled(u, Deliver(m))
            && (var t := Apply(u, Deliver(m));
                && Delivered(t, s.log[i].key)
                && t.received == u.received + (if EverAborts(s, steps) then {} else {s.pending[m]})
                && (m in t.heard <==> !EverAborts(s, steps)))
  {
    var key := s.log[i].key;
    assert RecordOf(s, m, key, i);
    RunCarries(s, steps, m, s.pending[m], key);
    var u := Run(s, steps);
    var k :| RecordOf(u, m, key, k);
    MarkOne(u.log, m, true, k);
    var t := Apply(u, Deliver(m));
    assert t.log[k].delivered && t.log[k].impact && t.log[k].key == key;
  }

  /** The failing run, from any state with a report in flight: abort, resume, delivery. The log counts the
      report as delivered, so it is never sent again, and its recipient knows no more than before. */
  lemma AbortHidesReport(s: State, m: nat, i: nat)
    requires Inv(s) && m in s.pending && AwaitsRecord(s, m, i)
    ensures var u := Apply(Apply(s, Abort), Resume);
            && Enabled(u, Deliver(m))
            && Delivered(Apply(u, Deliver(m)), s.log[i].key) && Apply(u, Deliver(m)).received == s.received
  {
    var u := Apply(Apply(s, Abort), Resume);
    MarkOne(s.log, m, true, i);
    var t := Apply(u, Deliver(m));
    assert t.log[i].delivered && t.log[i].impact && t.log[i].key == s.log[i].key;
  }

  /** A recipient knows a report exactly if some message carrying it was heard. */
  lemma KnownExactlyIfHeard(s: State, steps: seq<Step>, a: Awaited)
    requires Fresh(s) && Valid(s, steps)
    ensures var t := Run(s, steps); a in t.received <==> exists i :: EarnedAt(t, a, i)
  {
    FreshInv(s);
    RunKeepsInv(s, steps);
    var t := Run(s, steps);
    if i :| EarnedAt(t, a, i) {
      var k :| HeardAt(t, t.log[i].id, k);
      assert k == i;
    }
  }

  // ---- Undisturbed runs ---------------------------------------------------------------------

  predicate Calm(s: State, steps: seq<Step>)
    requires Valid(s, steps)
    decreases |steps|
  {
    steps == [] || (!Aborts(s, steps[0]) && !steps[0].Erase? && Calm(Apply(s, steps[0]), steps[1..]))
  }

  /** Nothing is abandoned, and the reports shown delivered are those heard. */
  ghost predicate Told(s: State) {
    s.abandoned == {} && forall i :: 0 <= i < |s.log| && s.log[i].impact ==> (s.log[i].delivered <==> s.log[i].id in s.heard)
  }

  lemma SendOneTold(s: State, item: Item, outcome: Outcome)
    requires Told(s) && Numbered(s) && HistoryKept(s) && item.route.role in s.terminals && s.status == Running
    requires SendOne(s, item, outcome).status == Running
    ensures Told(SendOne(s, item, outcome))
  {
    PastIsLogged(s);
  }

  lemma {:induction false} SendAllTold(s: State, items: seq<Item>, outcomes: seq<Outcome>)
    requires Inv(s) && Told(s) && Known(items, s.terminals) && s.status == Running
    requires forall item :: item in items ==> item in Items(s.routes, s.terminals, s.reports)
    requires SendAll(s, items, outcomes).status == Running
    ensures Told(SendAll(s, items, outcomes))
    decreases |items|
  {
    if items != [] {
      FirstItem(s, items, outcomes);
      var t, left := SendOne(s, items[0], Head(outcomes)), if Due(s, items[0]) then Tail(outcomes) else outcomes;
      assert t.status == Running;
      SendOneTold(s, items[0], Head(outcomes));
      SendOneKeepsInv(s, items[0], Head(outcomes));
      SendAllTold(t, items[1..], left);
    }
  }

  lemma StepTold(s: State, step: Step)
    requires Inv(s) && Told(s) && Enabled(s, step) && !Aborts(s, step) && !step.Erase?
    ensures Told(Apply(s, step))
  {
    match step
    case Send(outcomes) =>
      ItemsKnown(s.routes, s.terminals, s.reports);
      if s.status == Running && s.profile {
        SendAllTold(s, Items(s.routes, s.terminals, s.reports), outcomes);
      }
    case Deliver(m) =>
      var i :| AwaitsRecord(s, m, i);
      MarkOne(s.log, m, true, i);
    case _ =>
  }

  /** In a run without aborts and failed writes, what the scan counts as delivered has been received. */
  lemma CalmDeliveriesAreReceived(s: State, steps: seq<Step>, key: Key)
    requires Fresh(s) && Valid(s, steps) && Calm(s, steps)
    ensures var t := Run(s, steps);
            Delivered(t, key) ==> Awaited(key.recipient, key.intent) in t.received
  {
    FreshInv(s);
    CalmRunReceives(s, steps, key);
  }

  lemma {:induction false} CalmRunReceives(s: State, steps: seq<Step>, key: Key)
    requires Inv(s) && Told(s) && Valid(s, steps) && Calm(s, steps)
    ensures var t := Run(s, steps);
            Delivered(t, key) ==> Awaited(key.recipient, key.intent) in t.received
    decreases |steps|
  {
    if steps == [] {
      if Delivered(s, key) {
        var i :| 0 <= i < |s.log| && s.log[i].delivered && s.log[i].impact && s.log[i].key == key;
        var k :| HeardAt(s, s.log[i].id, k);
        assert k == i;
      }
    } else {
      StepTold(s, steps[0]);
      ApplyKeepsInv(s, steps[0]);
      CalmRunReceives(Apply(s, steps[0]), steps[1..], key);
    }
  }
}
