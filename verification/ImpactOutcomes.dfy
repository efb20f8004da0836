/** What becomes of each report a pass sends. */
module ImpactOutcomes {
  import opened Ordered
  import opened ImpactReports
  import opened ImpactSafety

  function OutcomeAt(outcomes: seq<Outcome>, k: nat): Outcome {
    if k < |outcomes| then outcomes[k] else Accepted
  }

  /** The k-th report sent from s to t. To the role's own terminal it is delivered and received at once, unless
      it cannot be written; otherwise it is waited for exactly if the radio took it. A report that cannot be
      written is the last one, and the game then waits for nothing. */
  ghost predicate Sent(s: State, t: State, k: nat, outcome: Outcome)
    requires |s.log| + k < |t.log|
  {
    var r := t.log[|s.log| + k];
    && r.id == s.next + k && r.impact && r.created == s.tick && r.key.role in s.terminals
    && (var local := s.terminals[r.key.role] == r.key.recipient;
        && (r.delivered <==> local && outcome != StoreFailed)
        && (r.id in t.heard <==> local && outcome != StoreFailed)
        && (local && outcome != StoreFailed ==> Awaited(r.key.recipient, r.key.intent) in t.received)
        && (outcome == StoreFailed ==> t.status == Paused && |t.log| == |s.log| + k + 1)
        && (t.status == Paused ==> t.pending == map[])
        && (t.status == Running ==>
              (r.id in t.pending <==> !local && outcome == Accepted)
              && (r.id in t.pending ==> t.pending[r.id] == Awaited(r.key.recipient, r.key.intent))))
  }

  lemma OneSent(s: State, item: Item, outcome: Outcome)
    requires Inv(s) && item.route.role in s.terminals && Due(s, item) && s.status == Running
    ensures var t := SendOne(s, item, outcome);
            && |t.log| == |s.log| + 1 && Sent(s, t, 0, outcome) && t.next == s.next + 1
            && (t.status == Paused <==> outcome == StoreFailed)
  {
    PastIsLogged(s);
    assert s.next !in s.pending && s.next !in s.heard;
  }

  lemma OneLater(s: State, item: Item, outcome: Outcome)
    requires item.route.role in s.terminals && Due(s, item)
    ensures var t := SendOne(s, item, outcome);
            |t.log| == |s.log| + 1 && t.next == s.next + 1 && t.tick == s.tick && t.terminals == s.terminals
  {
  }

  /** A pass logs no other report between. */
  lemma SentStays(s: State, t: State, u: State, k: nat, outcome: Outcome, item: Item, next: Outcome)
    requires |s.log| + k < |t.log| && Sent(s, t, k, outcome) && t.status == Running && outcome != StoreFailed
    requires item.route.role in t.terminals && Due(t, item) && u == SendOne(t, item, next) && s.next + k < t.next
    ensures |s.log| + k < |u.log| && Sent(s, u, k, outcome)
  {
  }

  lemma {:induction false} SentStaysThrough(
    s: State, t: State, items: seq<Item>, outcomes: seq<Outcome>, k: nat, outcome: Outcome)
    requires Known(items, t.terminals) && |s.log| + k < |t.log| && Sent(s, t, k, outcome) && s.next + k < t.next
    requires t.status == Running && outcome != StoreFailed
    ensures var u := SendAll(t, items, outcomes); |s.log| + k < |u.log| && Sent(s, u, k, outcome)
    decreases |items|
  {
    if items != [] {
      assert items[0] in items;
      var u := SendOne(t, items[0], Head(outcomes));
      if Due(t, items[0]) {
        SentStays(s, t, u, k, outcome, items[0], Head(outcomes));
      }
      if u.status == Running {
        SentStaysThrough(s, u, items[1..], if Due(t, items[0]) then Tail(outcomes) else outcomes, k, outcome);
      }
    }
  }

  lemma SentLater(s: State, t: State, u: State, k: nat, outcome: Outcome)
    requires |t.log| == |s.log| + 1 && t.next == s.next + 1 && t.tick == s.tick && t.terminals == s.terminals
    requires |t.log| + k < |u.log| && Sent(t, u, k, outcome)
    ensures |s.log| + (k + 1) < |u.log| && Sent(s, u, k + 1, outcome)
  {
  }

  lemma {:induction false} SendAllOutcomes(s: State, items: seq<Item>, outcomes: seq<Outcome>, k: nat)
    requires Inv(s) && Known(items, s.terminals) && s.status == Running
    requires forall item :: item in items ==> item in Items(s.routes, s.terminals, s.reports)
    requires |s.log| + k < |SendAll(s, items, outcomes).log|
    ensures Sent(s, SendAll(s, items, outcomes), k, OutcomeAt(outcomes, k))
    decreases |items|, 1
  {
    FirstItem(s, items, outcomes);
    SendOneKeepsInv(s, items[0], Head(outcomes));
    if !Due(s, items[0]) {
      SendAllOutcomes(s, items[1..], outcomes, k);
    } else if k == 0 {
      FirstOutcome(s, items[0], items[1..], outcomes);
    } else {
      var t := SendOne(s, items[0], Head(outcomes));
      OneLater(s, items[0], Head(outcomes));
      LaterOutcome(s, t, items[1..], outcomes, k);
    }
  }

  lemma LaterOutcome(s: State, t: State, rest: seq<Item>, outcomes: seq<Outcome>, k: nat)
    requires Inv(t) && Known(rest, t.terminals) && k > 0
    requires |t.log| == |s.log| + 1 && t.next == s.next + 1 && t.tick == s.tick && t.terminals == s.terminals
    requires forall item :: item in rest ==> item in Items(t.routes, t.terminals, t.reports)
    requires |s.log| + k < |SendAll(t, rest, Tail(outcomes)).log|
    ensures Sent(s, SendAll(t, rest, Tail(outcomes)), k, OutcomeAt(outcomes, k))
    decreases |rest| + 1, 0
  {
    if t.status == Running {
      SendAllOutcomes(t, rest, Tail(outcomes), k - 1);
      assert OutcomeAt(Tail(outcomes), k - 1) == OutcomeAt(outcomes, k);
      SentLater(s, t, SendAll(t, rest, Tail(outcomes)), k - 1, OutcomeAt(outcomes, k));
    }
  }

  lemma FirstOutcome(s: State, item: Item, rest: seq<Item>, outcomes: seq<Outcome>)
    requires Inv(s) && item.route.role in s.terminals && Due(s, item) && s.status == Running && Known(rest, s.terminals)
    ensures var u := SendAll(SendOne(s, item, Head(outcomes)), rest, Tail(outcomes));
            |s.log| < |u.log| && Sent(s, u, 0, OutcomeAt(outcomes, 0))
  {
    var t := SendOne(s, item, Head(outcomes));
    OneSent(s, item, Head(outcomes));
    if t.status == Running {
      SentStaysThrough(s, t, rest, Tail(outcomes), 0, Head(outcomes));
    }
  }

  /** Each report a pass sends becomes what the outcome of its turn makes of it. */
  lemma PassOutcomes(s: State, outcomes: seq<Outcome>, k: nat)
    requires Inv(s) && |s.log| + k < |SendReports(s, outcomes).log|
    ensures Sent(s, SendReports(s, outcomes), k, OutcomeAt(outcomes, k))
  {
    ItemsKnown(s.routes, s.terminals, s.reports);
    SendAllOutcomes(s, Items(s.routes, s.terminals, s.reports), outcomes, k);
  }

  /** A game without routes sends nothing; with routes, a missing profile pauses it and does nothing else. */
  lemma MissingProfilePauses(s: State, outcomes: seq<Outcome>)
    requires !s.profile && s.status == Running
    ensures SendReports(s, outcomes) == if |s.routes| > 0 then s.(status := Paused) else s
  {
  }
}
