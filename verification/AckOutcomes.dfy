/** What becomes of each message of a send. */
module AckOutcomes {
  import opened Ordered
  import opened ExecutionAcks
  import opened AckSafety
  import opened AckRuns
  import opened AckSettlement

  function OutcomeAt(outcomes: seq<Outcome>, k: nat): Outcome {
    if k < |outcomes| then outcomes[k] else Accepted
  }

  /** The message to order intent, the k-th of the send from s to t: to the executor's own terminal it is
      delivered, heard and confirmed at once, at this tick; otherwise it is waited for exactly if the radio took
      it, and the order stays unconfirmed. */
  ghost predicate Sent(s: State, t: State, k: nat, intent: nat, outcome: Outcome)
    requires intent in s.results
  {
    var ack, m := s.results[intent], s.next + k;
    var local := ack.executor == ack.recipient;
    && |s.log| + k < |t.log| && t.log[|s.log| + k].message.id == m && IsAttempt(t.log[|s.log| + k], intent)
    && t.log[|s.log| + k].deliveredNs == (if local then Some(s.tick * 1_000_000_000) else None)
    && (m in t.heard <==> local)
    && (m in t.pending <==> !local && outcome == Accepted) && (m in t.pending ==> t.pending[m] == intent)
    && intent in t.results && t.results[intent].received == (if local then Some(s.tick) else None)
  }

  lemma WholeSecond(tick: nat)
    ensures CeilTick(tick * NANOS_PER_TICK) == tick
  {
  }

  lemma OneSent(s: State, intent: nat, outcome: Outcome)
    requires Inv(s) && intent in s.results && Due(s, intent) && outcome != StoreFailed
    ensures Sent(s, SendOne(s, intent, outcome), 0, intent, outcome) && SendOne(s, intent, outcome).status == s.status
  {
    NextUnused(s);
    assert s.next !in s.heard;
    if s.results[intent].executor == s.results[intent].recipient {
      LocalReplyKnown(s, intent);
      WholeSecond(s.tick);
      assert SendOne(s, intent, outcome) == SendOne(s, intent, Accepted);
    }
  }

  /** A later attempt leaves an earlier one as it is. */
  lemma SentStays(s: State, t: State, u: State, k: nat, intent: nat, outcome: Outcome, other: nat)
    requires intent in s.results && Sent(s, t, k, intent, outcome) && other in t.results && other != intent
    requires Attempted(t, u, other) && u.status == Running && s.next + k < t.next
    ensures Sent(s, u, k, intent, outcome)
  {
    assert u.log[..|t.log|][|s.log| + k] == t.log[|s.log| + k];
  }

  lemma {:induction false} SentStaysThrough(
    s: State, t: State, due: seq<nat>, outcomes: seq<Outcome>, k: nat, intent: nat, outcome: Outcome)
    requires Inv(t) && Ascending(due) && intent !in due && forall id :: id in due ==> id in t.results && Due(t, id)
    requires intent in s.results && Sent(s, t, k, intent, outcome) && t.status == Running && s.next + k < t.next
    requires SendAll(t, due, outcomes).status == Running
    ensures Sent(s, SendAll(t, due, outcomes), k, intent, outcome)
    decreases |due|
  {
    if due != [] {
      var u := SendOne(t, due[0], Head(outcomes));
      FirstAttempt(t, due, outcomes, u);
      StillRunning(u, due[1..], Tail(outcomes));
      SentStays(s, t, u, k, intent, outcome, due[0]);
      SentStaysThrough(s, u, due[1..], Tail(outcomes), k, intent, outcome);
    }
  }

  lemma StillRunning(s: State, due: seq<nat>, outcomes: seq<Outcome>)
    requires forall id :: id in due ==> id in s.results
    ensures SendAll(s, due, outcomes).status == Running ==> s.status == Running
  {
  }

  /** Read from the state after one more attempt, the same message has the next smaller place. */
  lemma SentLater(s: State, t: State, u: State, first: nat, k: nat, intent: nat, outcome: Outcome)
    requires first in s.results && intent in s.results && intent != first && Attempted(s, t, first)
    requires Sent(t, u, k, intent, outcome)
    ensures Sent(s, u, k + 1, intent, outcome)
  {
  }

  lemma {:induction false} SendAllOutcomes(s: State, due: seq<nat>, outcomes: seq<Outcome>, k: nat)
    requires Inv(s) && Ascending(due) && s.status == Running && k < |due|
    requires forall id :: id in due ==> id in s.results && Due(s, id)
    requires SendAll(s, due, outcomes).status == Running
    ensures OutcomeAt(outcomes, k) != StoreFailed && Sent(s, SendAll(s, due, outcomes), k, due[k], OutcomeAt(outcomes, k))
    decreases |due|, 1
  {
    var t := SendOne(s, due[0], Head(outcomes));
    FirstAttempt(s, due, outcomes, t);
    StillRunning(t, due[1..], Tail(outcomes));
    if k == 0 {
      FirstOutcome(s, t, due, outcomes);
    } else {
      LaterOutcome(s, t, due, outcomes, k);
    }
  }

  /** After the first attempt of a send that goes on. */
  ghost predicate Going(s: State, t: State, due: seq<nat>, outcomes: seq<Outcome>) {
    && due != [] && due[0] in s.results && Due(s, due[0]) && s.status == t.status == Running
    && t == SendOne(s, due[0], Head(outcomes)) && Attempted(s, t, due[0])
    && Ascending(due[1..]) && due[0] !in due[1..]
    && (forall id :: id in due[1..] ==> id in t.results && Due(t, id))
    && SendAll(t, due[1..], Tail(outcomes)).status == Running
  }

  lemma FirstOutcome(s: State, t: State, due: seq<nat>, outcomes: seq<Outcome>)
    requires Inv(s) && Inv(t) && Going(s, t, due, outcomes)
    ensures Head(outcomes) != StoreFailed && Sent(s, SendAll(t, due[1..], Tail(outcomes)), 0, due[0], Head(outcomes))
  {
    RunningIsWritten(s, due[0], Head(outcomes));
    OneSent(s, due[0], Head(outcomes));
    SentStaysThrough(s, t, due[1..], Tail(outcomes), 0, due[0], Head(outcomes));
  }

  lemma RunningIsWritten(s: State, intent: nat, outcome: Outcome)
    requires intent in s.results && SendOne(s, intent, outcome).status == Running
    ensures outcome != StoreFailed
  {
  }

  lemma LaterOutcome(s: State, t: State, due: seq<nat>, outcomes: seq<Outcome>, k: nat)
    requires Inv(t) && Going(s, t, due, outcomes) && 0 < k < |due| && due[k] in s.results
    ensures OutcomeAt(outcomes, k) != StoreFailed
            && Sent(s, SendAll(t, due[1..], Tail(outcomes)), k, due[k], OutcomeAt(outcomes, k))
    decreases |due|, 0
  {
    SendAllOutcomes(t, due[1..], Tail(outcomes), k - 1);
    assert OutcomeAt(Tail(outcomes), k - 1) == OutcomeAt(outcomes, k) && due[1..][k - 1] == due[k];
    assert due[k] in due[1..];
    SentLater(s, t, SendAll(t, due[1..], Tail(outcomes)), due[0], k - 1, due[k], OutcomeAt(outcomes, k));
  }

  lemma FirstSame(a: seq<nat>, b: seq<nat>)
    requires Ascending(a) && Ascending(b) && a != [] && b != [] && a[0] in b && b[0] in a
    ensures a[0] == b[0]
  {
    var i :| 0 <= i < |b| && b[i] == a[0];
    var j :| 0 <= j < |a| && a[j] == b[0];
  }

  lemma {:induction false} AscendingUnique(a: seq<nat>, b: seq<nat>)
    requires Ascending(a) && Ascending(b) && forall x :: x in a <==> x in b
    ensures a == b
    decreases |a|
  {
    if a == [] {
      assert forall i :: 0 <= i < |b| ==> b[i] in b;
    } else {
      assert a[0] in a && a[0] in b && b[0] in b;
      FirstSame(a, b);
      forall x ensures x in a[1..] <==> x in b[1..] {
        TailHas(a, x);
        TailHas(b, x);
      }
      AscendingUnique(a[1..], b[1..]);
      assert a == [a[0]] + a[1..] && b == [b[0]] + b[1..];
    }
  }

  lemma TailHas(a: seq<nat>, x: nat)
    requires Ascending(a) && a != []
    ensures x in a[1..] <==> x in a && x != a[0]
  {
    assert a == [a[0]] + a[1..];
  }

  /** A send that is not cut short: it sends to the due orders in order of their identifiers, and each message
      becomes what the outcome of its turn makes of it. */
  lemma SendOutcomes(s: State, outcomes: seq<Outcome>, due: seq<nat>, k: nat)
    requires Inv(s) && s.status == Running && s.expiry.Some? && SendPending(s, outcomes).status == Running
    requires Ascending(due) && (forall id :: id in due <==> id in s.results && Due(s, id)) && k < |due|
    ensures OutcomeAt(outcomes, k) != StoreFailed && Sent(s, SendPending(s, outcomes), k, due[k], OutcomeAt(outcomes, k))
  {
    AscendingUnique(due, DueIntents(s));
    assert due[k] in due && !Closed(s, due[k]);
    SendAllOutcomes(s, due, outcomes, k);
  }

  /** With nothing to settle a send does nothing, whether or not the profile exists; with something to settle, a
      missing profile pauses the game and does nothing else. */
  lemma MissingProfilePauses(s: State, outcomes: seq<Outcome>)
    requires s.expiry.None? && s.status == Running
    ensures SendPending(s, outcomes) ==
            if exists intent :: intent in s.results && s.results[intent].received.None?
                                && (s.results[intent].attempts < 4 || exists m :: m in s.pending && s.pending[m] == intent)
            then s.(status := Paused) else s
  {
    forall intent | intent in s.results
      ensures Closed(s, intent) <==>
                !(s.results[intent].received.None?
                  && (s.results[intent].attempts < 4 || exists m :: m in s.pending && s.pending[m] == intent))
    {
    }
  }
}
