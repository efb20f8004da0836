/** What every step of the acknowledgement protocol keeps, and what that gives over whole runs. */
module AckSafety {
  import opened Ordered
  import opened ExecutionAcks

  predicate IsAttempt(r: Record, intent: nat) {
    r.message.profile == AckProfile && r.message.intent == intent
  }

  /** The radio ticks at which the log shows an acknowledgement of this order being sent. */
  function SendTicks(log: seq<Record>, intent: nat): seq<nat> {
    if log == [] then []
    else
      SendTicks(log[..|log| - 1], intent)
      + (if IsAttempt(log[|log| - 1], intent) then [log[|log| - 1].message.createdTick] else [])
  }

  ghost predicate Paced(ticks: seq<nat>) {
    forall i :: 0 < i < |ticks| ==> ticks[i] >= ticks[i - 1] + RETRY_TICKS
  }

  ghost predicate LogNumbered(s: State) {
    && (forall i, j :: 0 <= i < j < |s.log| ==> s.log[i].message.id < s.log[j].message.id)
    && (forall i :: 0 <= i < |s.log| ==> s.log[i].message.id < s.next)
  }

  /** Every acknowledgement in the log repeats the result recorded for its order. */
  ghost predicate LogFaithful(s: State) {
    forall i :: 0 <= i < |s.log| && s.log[i].message.profile == AckProfile ==>
      var intent := s.log[i].message.intent;
      intent in s.results && Matches(s.log[i].message, s.results[intent], intent)
  }

  ghost predicate AckLogged(s: State, intent: nat)
    requires intent in s.results
  {
    var ack, ticks := s.results[intent], SendTicks(s.log, intent);
    && |ticks| == ack.attempts <= MAX_ATTEMPTS
    && Paced(ticks)
    && ack.last == (if ticks == [] then None else Some(ticks[|ticks| - 1]))
    && (ack.last.Some? ==> ack.last.value <= s.tick)
  }

  ghost predicate AttemptsLogged(s: State) {
    forall intent :: intent in s.results ==> AckLogged(s, intent)
  }

  /** What is in flight is the undelivered last attempt of its order, and the only one. */
  ghost predicate InFlightAt(s: State, m: nat, i: int)
    requires m in s.pending
  {
    && 0 <= i < |s.log|
    && s.log[i].message.id == m
    && s.log[i].deliveredNs.None?
    && IsAttempt(s.log[i], s.pending[m])
    && s.pending[m] in s.results
    && s.results[s.pending[m]].last == Some(s.log[i].message.createdTick)
    && s.results[s.pending[m]].received.None?
    && m !in s.heard
  }

  ghost predicate PendingLogged(s: State) {
    && (forall m :: m in s.pending ==> exists i :: InFlightAt(s, m, i))
    && (forall m, n :: m in s.pending && n in s.pending && s.pending[m] == s.pending[n] ==> m == n)
  }

  ghost predicate DeliveredAt(s: State, intent: nat, i: int) {
    0 <= i < |s.log| && IsAttempt(s.log[i], intent) && s.log[i].deliveredNs.Some?
  }

  /** An acknowledgement of the order was delivered while its action waited. */
  ghost predicate HeardAt(s: State, intent: nat, i: int) {
    0 <= i < |s.log| && IsAttempt(s.log[i], intent) && s.log[i].message.id in s.heard
  }

  /** An order is confirmed exactly when one of its acknowledgements was heard, at that tick. */
  ghost predicate KnowledgeEarned(s: State) {
    && (forall i :: 0 <= i < |s.log| && HeardAt(s, s.log[i].message.intent, i) && s.log[i].message.intent in s.results ==>
          s.results[s.log[i].message.intent].received == Some(CeilTick(s.heard[s.log[i].message.id])))
    && (forall intent :: intent in s.results && s.results[intent].received.Some? ==>
          exists i :: HeardAt(s, intent, i))
  }

  ghost predicate AbandonedAt(s: State, m: nat, i: int) {
    && 0 <= i < |s.log| && s.log[i].message.id == m
    && s.log[i].message.profile == AckProfile && s.log[i].deliveredNs.None?
  }

  /** A record still marked delivered shows the time it was heard, if it was; what is abandoned is logged,
      undelivered and waited for by nothing. */
  ghost predicate HistoryKept(s: State) {
    && (forall i :: 0 <= i < |s.log| && s.log[i].deliveredNs.Some? && s.log[i].message.id in s.heard ==>
          s.log[i].deliveredNs == Some(s.heard[s.log[i].message.id]))
    && (forall m :: m in s.heard ==> m < s.next)
    && (forall m :: m in s.abandoned ==> m !in s.pending && m !in s.heard && exists i :: AbandonedAt(s, m, i))
  }

  ghost predicate Inv(s: State) {
    && LogNumbered(s) && LogFaithful(s) && AttemptsLogged(s) && PendingLogged(s) && KnowledgeEarned(s) && HistoryKept(s)
  }

  lemma {:induction false} SendTicksSameMessages(a: seq<Record>, b: seq<Record>, intent: nat)
    requires |a| == |b|
    requires forall i :: 0 <= i < |a| ==> a[i].message == b[i].message
    ensures SendTicks(a, intent) == SendTicks(b, intent)
  {
    if a != [] {
      SendTicksSameMessages(a[..|a| - 1], b[..|b| - 1], intent);
    }
  }

  lemma SendTicksAppend(log: seq<Record>, r: Record, intent: nat)
    ensures SendTicks(log + [r], intent) ==
            SendTicks(log, intent) + (if IsAttempt(r, intent) then [r.message.createdTick] else [])
  {
    assert (log + [r])[..|log|] == log;
  }

  lemma {:induction false} NoAttemptNoTicks(log: seq<Record>, intent: nat)
    requires forall i :: 0 <= i < |log| ==> !IsAttempt(log[i], intent)
    ensures SendTicks(log, intent) == []
  {
    if log != [] {
      NoAttemptNoTicks(log[..|log| - 1], intent);
    }
  }

  lemma FreshInv(s: State)
    requires Fresh(s)
    ensures Inv(s)
  {}

  /** Orders keep their entries, and new entries start without attempts. */
  ghost predicate Recorded(s: State, t: State, intent: nat) {
    && t.log == s.log && t.pending == s.pending && t.heard == s.heard && t.abandoned == s.abandoned
    && t.next == s.next && t.tick == s.tick
    && intent !in s.results && t.results.Keys == s.results.Keys + {intent}
    && (forall other :: other in s.results ==> t.results[other] == s.results[other])
    && t.results[intent].attempts == 0 && t.results[intent].last.None? && t.results[intent].received.None?
  }

  lemma RecordResultKeepsInv(s: State, issuer: nat, executor: nat, executedTick: nat, result: OrderResult)
    requires Inv(s) && issuer in s.roles
    ensures Inv(RecordResult(s, issuer, executor, executedTick, result))
  {
    if result.intent !in s.results {
      var t := RecordResult(s, issuer, executor, executedTick, result);
      RecordedKeepsAttempts(s, t, result.intent);
      RecordedKeepsPending(s, t, result.intent);
      RecordedKeepsKnowledge(s, t, result.intent);
      SameRecordsKeepHistory(s, t);
    }
  }

  lemma RecordedKeepsAttempts(s: State, t: State, intent: nat)
    requires LogFaithful(s) && AttemptsLogged(s) && Recorded(s, t, intent)
    ensures AttemptsLogged(t) && LogFaithful(t)
  {
    NoAttemptNoTicks(s.log, intent);
    forall other | other in t.results ensures AckLogged(t, other) {
      if other != intent { assert AckLogged(s, other); }
    }
  }

  lemma RecordedKeepsPending(s: State, t: State, intent: nat)
    requires PendingLogged(s) && Recorded(s, t, intent)
    ensures PendingLogged(t)
  {
    forall m | m in t.pending ensures exists i :: InFlightAt(t, m, i) {
      var i :| InFlightAt(s, m, i);
      assert InFlightAt(t, m, i);
    }
  }

  lemma RecordedKeepsKnowledge(s: State, t: State, intent: nat)
    requires LogFaithful(s) && KnowledgeEarned(s) && Recorded(s, t, intent)
    ensures KnowledgeEarned(t)
  {
    forall other | other in t.results && t.results[other].received.Some? ensures exists i :: HeardAt(t, other, i) {
      var i :| HeardAt(s, other, i);
      assert HeardAt(t, other, i);
    }
    forall i | 0 <= i < |t.log| && HeardAt(t, t.log[i].message.intent, i)
      ensures t.results[t.log[i].message.intent].received == Some(CeilTick(t.heard[t.log[i].message.id]))
    {
      assert HeardAt(s, s.log[i].message.intent, i);
    }
  }

  lemma SameRecordsKeepHistory(s: State, t: State)
    requires HistoryKept(s) && t.log == s.log && t.heard == s.heard && t.next == s.next
    requires t.abandoned <= s.abandoned && t.pending.Keys <= s.pending.Keys
    ensures HistoryKept(t)
  {
    forall m | m in t.abandoned ensures exists i :: AbandonedAt(t, m, i) {
      var i :| AbandonedAt(s, m, i);
      assert AbandonedAt(t, m, i);
    }
  }

  /** The log shows message m as a delivered acknowledgement of an unconfirmed order: it arrived when
      nothing waited for it any more. */
  ghost predicate Overheard(s: State, m: nat, intent: nat) {
    && intent in s.results && s.results[intent].received.None?
    && exists i :: DeliveredAt(s, intent, i) && s.log[i].message.id == m
  }

  /** A direct call of receive learns something exactly from a message overheard. */
  lemma {:induction false} ReceiveLearnsExactly(s: State, m: nat, intent: nat)
    requires Inv(s)
    ensures Receive(s, m, intent) != s <==> Overheard(s, m, intent)
    ensures Overheard(s, m, intent) ==> m !in s.heard
  {
    var i := IndexOf(s.log, m);
    if Overheard(s, m, intent) {
      var k :| DeliveredAt(s, intent, k) && s.log[k].message.id == m;
      IndexOfRecord(s.log, m, k);
      assert Receive(s, m, intent).results[intent].received.Some?;
      assert m in s.heard ==> HeardAt(s, s.log[k].message.intent, k);
    } else if i < |s.log| && intent in s.results && Matches(s.log[i].message, s.results[intent], intent)
              && s.log[i].deliveredNs.Some? {
      assert DeliveredAt(s, intent, i);
    }
  }

  lemma FewerPendingKeepsInv(s: State, t: State)
    requires Inv(s)
    requires t == s.(pending := t.pending, status := t.status, tick := t.tick, roles := t.roles)
    requires t.tick >= s.tick
    requires forall m :: m in t.pending ==> m in s.pending && t.pending[m] == s.pending[m]
    ensures Inv(t)
  {
    forall intent | intent in t.results ensures AckLogged(t, intent) {
      assert AckLogged(s, intent);
    }
    forall m | m in t.pending ensures exists i :: InFlightAt(t, m, i) {
      var i :| InFlightAt(s, m, i);
      assert InFlightAt(t, m, i);
    }
    SameHeardKeepsKnowledge(s, t);
    SameRecordsKeepHistory(s, t);
  }

  lemma SameHeardKeepsKnowledge(s: State, t: State)
    requires KnowledgeEarned(s) && t.results == s.results && t.heard == s.heard
    requires |t.log| == |s.log| && forall i :: 0 <= i < |s.log| ==> t.log[i].message == s.log[i].message
    ensures KnowledgeEarned(t)
  {
    forall intent | intent in t.results && t.results[intent].received.Some? ensures exists i :: HeardAt(t, intent, i) {
      var i :| HeardAt(s, intent, i);
      assert HeardAt(t, intent, i);
    }
    forall i | 0 <= i < |t.log| && HeardAt(t, t.log[i].message.intent, i) && t.log[i].message.intent in t.results
      ensures t.results[t.log[i].message.intent].received == Some(CeilTick(t.heard[t.log[i].message.id]))
    {
      assert HeardAt(s, s.log[i].message.intent, i);
    }
  }

  /** Dropping every waiting action abandons their messages. */
  lemma AbandonKeepsInv(s: State)
    requires Inv(s)
    ensures Inv(Abandoned(s))
  {
    var t, idle := Abandoned(s), s.(status := Paused, pending := map[]);
    FewerPendingKeepsInv(s, idle);
    forall intent | intent in t.results ensures AckLogged(t, intent) {
      assert AckLogged(s, intent);
    }
    SameHeardKeepsKnowledge(s, t);
    forall m | m in t.abandoned ensures m !in t.heard && exists i :: AbandonedAt(t, m, i) {
      if m in s.pending {
        var i :| InFlightAt(s, m, i);
        assert AbandonedAt(t, m, i);
      } else {
        var i :| AbandonedAt(s, m, i);
        assert AbandonedAt(t, m, i);
      }
    }
  }

  lemma IndexOfRecord(log: seq<Record>, m: nat, i: nat)
    requires i < |log| && log[i].message.id == m
    requires forall j, k :: 0 <= j < k < |log| ==> log[j].message.id < log[k].message.id
    ensures IndexOf(log, m) == i
  {
    var j := IndexOf(log, m);
    if j < i {
      assert false;
    }
  }

  ghost function Delivered(s: State, m: nat, atNs: nat): State
    requires m in s.pending && s.pending[m] in s.results && IndexOf(s.log, m) < |s.log|
  {
    var i, intent := IndexOf(s.log, m), s.pending[m];
    s.(log := s.log[i := s.log[i].(deliveredNs := Some(atNs))],
       pending := s.pending - {m}, heard := s.heard[m := atNs],
       results := s.results[intent := s.results[intent].(received := Some(CeilTick(atNs)))])
  }

  lemma InFlightIsFound(s: State, m: nat)
    requires Inv(s) && m in s.pending
    ensures s.pending[m] in s.results && s.results[s.pending[m]].received.None?
    ensures IndexOf(s.log, m) < |s.log| && InFlightAt(s, m, IndexOf(s.log, m))
    ensures Matches(s.log[IndexOf(s.log, m)].message, s.results[s.pending[m]], s.pending[m])
  {
    var i :| InFlightAt(s, m, i);
    IndexOfRecord(s.log, m, i);
    assert s.log[i].message.profile == AckProfile;
  }

  lemma MarkedIsFound(s: State, m: nat, atNs: nat)
    requires LogNumbered(s) && IndexOf(s.log, m) < |s.log|
    ensures IndexOf(MarkDelivered(s, m, atNs).log, m) == IndexOf(s.log, m)
  {
    var marked := MarkDelivered(s, m, atNs);
    IndexOfRecord(marked.log, m, IndexOf(s.log, m));
  }

  lemma ReceiveRecords(u: State, m: nat, intent: nat, i: nat, atNs: nat)
    requires i == IndexOf(u.log, m) < |u.log| && u.log[i].deliveredNs == Some(atNs)
    requires intent in u.results && u.results[intent].received.None? && Matches(u.log[i].message, u.results[intent], intent)
    ensures Receive(u, m, intent)
         == u.(results := u.results[intent := u.results[intent].(received := Some(CeilTick(atNs)))])
  {
  }

  /** The delivery of a message in flight confirms its order, at the delivery time rounded up. */
  lemma {:induction false} DeliveryConfirms(s: State, m: nat, atNs: nat)
    requires Inv(s) && m in s.pending
    ensures s.pending[m] in s.results && s.results[s.pending[m]].received.None?
    ensures IndexOf(s.log, m) < |s.log| && InFlightAt(s, m, IndexOf(s.log, m))
    ensures Apply(s, Deliver(m, atNs)) == Delivered(s, m, atNs)
  {
    InFlightIsFound(s, m);
    DeliverIsReceived(s, m, atNs, IndexOf(s.log, m));
  }

  lemma DeliverIsReceived(s: State, m: nat, atNs: nat, i: nat)
    requires LogNumbered(s) && m in s.pending && i == IndexOf(s.log, m) < |s.log|
    requires s.pending[m] in s.results && s.results[s.pending[m]].received.None?
    requires Matches(s.log[i].message, s.results[s.pending[m]], s.pending[m])
    ensures Apply(s, Deliver(m, atNs)) == Delivered(s, m, atNs)
  {
    MarkedIsFound(s, m, atNs);
    var u := MarkDelivered(s, m, atNs).(pending := s.pending - {m}, heard := s.heard[m := atNs]);
    assert u.log[i] == s.log[i].(deliveredNs := Some(atNs));
    ReceiveRecords(u, m, s.pending[m], i, atNs);
  }

  lemma DeliverKeepsLog(s: State, t: State, m: nat, atNs: nat)
    requires LogNumbered(s) && LogFaithful(s) && AttemptsLogged(s)
    requires m in s.pending && s.pending[m] in s.results && IndexOf(s.log, m) < |s.log|
    requires t == Delivered(s, m, atNs)
    ensures LogNumbered(t) && LogFaithful(t) && AttemptsLogged(t)
  {
    forall intent | intent in t.results ensures AckLogged(t, intent) {
      SendTicksSameMessages(s.log, t.log, intent);
      assert AckLogged(s, intent);
    }
    forall k | 0 <= k < |t.log| && t.log[k].message.profile == AckProfile
      ensures t.log[k].message.intent in t.results
              && Matches(t.log[k].message, t.results[t.log[k].message.intent], t.log[k].message.intent)
    {
      assert s.log[k].message == t.log[k].message;
    }
  }

  lemma OtherStaysInFlight(s: State, t: State, m: nat, atNs: nat, n: nat, k: int)
    requires LogNumbered(s)
    requires m in s.pending && s.pending[m] in s.results && IndexOf(s.log, m) < |s.log|
    requires t == Delivered(s, m, atNs)
    requires n in s.pending && n != m && s.pending[n] != s.pending[m] && InFlightAt(s, n, k)
    ensures InFlightAt(t, n, k)
  {
    assert t.log[k] == s.log[k];
    assert t.results[s.pending[n]] == s.results[s.pending[n]];
  }

  lemma DeliverKeepsPending(s: State, t: State, m: nat, atNs: nat)
    requires LogNumbered(s) && PendingLogged(s)
    requires m in s.pending && s.pending[m] in s.results && IndexOf(s.log, m) < |s.log|
    requires t == Delivered(s, m, atNs)
    ensures PendingLogged(t)
  {
    forall n | n in t.pending ensures exists k :: InFlightAt(t, n, k) {
      var k :| InFlightAt(s, n, k);
      OtherStaysInFlight(s, t, m, atNs, n, k);
    }
  }

  lemma DeliverKeepsKnowledge(s: State, t: State, m: nat, atNs: nat)
    requires KnowledgeEarned(s) && LogNumbered(s)
    requires m in s.pending && IndexOf(s.log, m) < |s.log| && InFlightAt(s, m, IndexOf(s.log, m))
    requires t == Delivered(s, m, atNs)
    ensures KnowledgeEarned(t)
  {
    var i, known := IndexOf(s.log, m), s.pending[m];
    assert HeardAt(t, known, i);
    forall intent | intent in t.results && t.results[intent].received.Some?
      ensures exists k :: HeardAt(t, intent, k)
    {
      if intent != known {
        var k :| HeardAt(s, intent, k);
        assert HeardAt(t, intent, k);
      }
    }
    forall k | 0 <= k < |t.log| && HeardAt(t, t.log[k].message.intent, k) && t.log[k].message.intent in t.results
      ensures t.results[t.log[k].message.intent].received == Some(CeilTick(t.heard[t.log[k].message.id]))
    {
      if k != i {
        assert s.log[k].message.id != m;
        assert HeardAt(s, s.log[k].message.intent, k);
        assert s.log[k].message.intent != known;
      }
    }
  }

  lemma DeliverKeepsHistory(s: State, t: State, m: nat, atNs: nat)
    requires HistoryKept(s) && LogNumbered(s)
    requires m in s.pending && IndexOf(s.log, m) < |s.log| && InFlightAt(s, m, IndexOf(s.log, m))
    requires t == Delivered(s, m, atNs)
    ensures HistoryKept(t)
  {
    forall n | n in t.abandoned ensures n != m && exists k :: AbandonedAt(t, n, k) {
      var k :| AbandonedAt(s, n, k);
      assert AbandonedAt(t, n, k);
    }
  }

  /** A record's mark changes, and with it at most what is abandoned. */
  ghost predicate Remarked(s: State, t: State, m: nat, i: nat) {
    && i < |s.log| && s.log[i].message.id == m && |t.log| == |s.log|
    && t == s.(status := t.status, log := s.log[i := s.log[i].(deliveredNs := t.log[i].deliveredNs)], abandoned := t.abandoned)
    && m !in s.pending && m !in t.abandoned && t.abandoned <= s.abandoned
    && (t.log[i].deliveredNs.Some? ==> m !in s.heard)
  }

  lemma RemarkKeepsLog(s: State, t: State, m: nat, i: nat)
    requires Remarked(s, t, m, i) && LogNumbered(s) && LogFaithful(s) && AttemptsLogged(s)
    ensures LogNumbered(t) && LogFaithful(t) && AttemptsLogged(t)
  {
    assert forall k :: 0 <= k < |s.log| ==> t.log[k].message == s.log[k].message;
    forall intent | intent in t.results ensures AckLogged(t, intent) {
      SendTicksSameMessages(s.log, t.log, intent);
      assert AckLogged(s, intent);
    }
    assert LogFaithful(t) by {
      forall k | 0 <= k < |t.log| && t.log[k].message.profile == AckProfile
        ensures t.log[k].message.intent in t.results
                && Matches(t.log[k].message, t.results[t.log[k].message.intent], t.log[k].message.intent)
      {
        assert s.log[k].message.profile == AckProfile;
      }
    }
  }

  lemma RemarkKeepsPending(s: State, t: State, m: nat, i: nat)
    requires Remarked(s, t, m, i) && PendingLogged(s)
    ensures PendingLogged(t)
  {
    forall n | n in t.pending ensures exists k :: InFlightAt(t, n, k) {
      var k :| InFlightAt(s, n, k);
      assert InFlightAt(t, n, k);
    }
  }

  lemma RemarkKeepsHistory(s: State, t: State, m: nat, i: nat)
    requires Remarked(s, t, m, i) && HistoryKept(s)
    ensures HistoryKept(t)
  {
    forall n | n in t.abandoned ensures exists k :: AbandonedAt(t, n, k) {
      var k :| AbandonedAt(s, n, k);
      assert AbandonedAt(t, n, k);
    }
  }

  lemma RemarkKeepsInv(s: State, t: State, m: nat, i: nat)
    requires Inv(s) && Remarked(s, t, m, i)
    ensures Inv(t)
  {
    RemarkKeepsLog(s, t, m, i);
    RemarkKeepsPending(s, t, m, i);
    SameHeardKeepsKnowledge(s, t);
    RemarkKeepsHistory(s, t, m, i);
  }

  /** A late delivery marks its record and nothing else: the order stays unconfirmed. */
  lemma LateDeliveryOnlyMarks(s: State, m: nat, atNs: nat)
    requires Inv(s) && m in s.abandoned
    ensures var i, t := IndexOf(s.log, m), Apply(s, Deliver(m, atNs));
            && m !in s.pending && i < |s.log| && s.log[i].deliveredNs.None? && s.log[i].message.profile == AckProfile
            && t == s.(log := s.log[i := s.log[i].(deliveredNs := Some(atNs))], abandoned := s.abandoned - {m})
            && Remarked(s, t, m, i)
  {
    var i :| AbandonedAt(s, m, i);
    IndexOfRecord(s.log, m, i);
  }

  lemma EraseKeepsInv(s: State, m: nat)
    requires Inv(s)
    ensures Inv(EraseDelivery(s, m))
  {
    var i, t := IndexOf(s.log, m), EraseDelivery(s, m);
    if i < |s.log| && s.log[i].deliveredNs.Some? {
      forall k | 0 <= k < |s.log| && s.log[k].message.id == m ensures k == i {
        IndexOfRecord(s.log, m, k);
      }
      forall n | n in s.pending ensures n != m {
        var k :| InFlightAt(s, n, k);
      }
      forall n | n in s.abandoned ensures n != m {
        var k :| AbandonedAt(s, n, k);
      }
      RemarkKeepsInv(s, t, m, i);
    } else {
      assert t.log == s.log;
      FewerPendingKeepsInv(s, t);
    }
  }

  lemma DeliverKeepsInv(s: State, m: nat, atNs: nat)
    requires Inv(s) && Enabled(s, Deliver(m, atNs))
    ensures Inv(Apply(s, Deliver(m, atNs)))
  {
    if m in s.pending {
      DeliveryConfirms(s, m, atNs);
      var t := Delivered(s, m, atNs);
      DeliverKeepsLog(s, t, m, atNs);
      DeliverKeepsPending(s, t, m, atNs);
      DeliverKeepsKnowledge(s, t, m, atNs);
      DeliverKeepsHistory(s, t, m, atNs);
    } else {
      LateDeliveryOnlyMarks(s, m, atNs);
      RemarkKeepsInv(s, Apply(s, Deliver(m, atNs)), m, IndexOf(s.log, m));
    }
  }

  /** One attempt for a due order, written out: what its entry, the log and the pending set become. */
  ghost predicate Attempted(s: State, t: State, intent: nat)
    requires intent in s.results
  {
    var ack := s.results[intent];
    && t.results.Keys == s.results.Keys
    && (forall other :: other in s.results && other != intent ==> t.results[other] == s.results[other])
    && |t.log| == |s.log| + 1 && t.log[..|s.log|] == s.log
    && t.log[|s.log|].message == Composed(s, intent)
    && t.next == s.next + 1 && t.tick == s.tick && t.expiry == s.expiry && t.roles == s.roles
    && (t.status == Running ==> s.status == Running)
    && (forall m :: m in t.pending && m in s.pending ==> t.pending[m] == s.pending[m])
    && (forall m :: m in t.pending && m !in s.pending ==> m == s.next && t.pending[m] == intent)
    && (t.status == Running ==> s.pending.Keys <= t.pending.Keys)
    && t.results[intent] == ack.(attempts := ack.attempts + 1, last := Some(s.tick),
                                 received := t.results[intent].received)
    && (t.log[|s.log|].deliveredNs.Some? ==>
          t.log[|s.log|].deliveredNs == Some(s.tick * NANOS_PER_TICK) && t.heard == s.heard[s.next := s.tick * NANOS_PER_TICK]
          && t.results[intent].received == Some(CeilTick(s.tick * NANOS_PER_TICK)) && t.pending == s.pending)
    && (t.log[|s.log|].deliveredNs.None? ==> t.results[intent].received == ack.received && t.heard == s.heard)
    && s.abandoned <= t.abandoned
    && (t.status == Paused && s.status == Running ==> t.pending == map[] && s.pending.Keys <= t.abandoned)
    && (t.abandoned == s.abandoned || (t.status == Paused && t.pending == map[] && t.log[|s.log|].deliveredNs.None?
                                       && t.abandoned <= s.abandoned + s.pending.Keys + {s.next}))
  }

  lemma LocalReplyKnown(s: State, intent: nat)
    requires LogNumbered(s) && intent in s.results && s.results[intent].received.None?
    requires s.results[intent].executor == s.results[intent].recipient
    ensures var ack := s.results[intent];
            SendOne(s, intent, Accepted) == s.(
              results := s.results[intent := ack.(attempts := ack.attempts + 1, last := Some(s.tick),
                                                  received := Some(CeilTick(s.tick * NANOS_PER_TICK)))],
              next := s.next + 1, heard := s.heard[s.next := s.tick * NANOS_PER_TICK],
              log := s.log + [Record(Composed(s, intent), Some(s.tick * NANOS_PER_TICK))])
  {
    var message := Composed(s, intent);
    var log := s.log + [Record(message, Some(s.tick * NANOS_PER_TICK))];
    IndexOfRecord(log, s.next, |s.log|);
    assert log[|s.log|].message == message;
  }

  lemma LocalAttempts(s: State, t: State, intent: nat)
    requires intent in s.results && s.results[intent].received.None? && s.next !in s.pending
    requires var ack := s.results[intent];
             t == s.(
               results := s.results[intent := ack.(attempts := ack.attempts + 1, last := Some(s.tick),
                                                   received := Some(CeilTick(s.tick * NANOS_PER_TICK)))],
               next := s.next + 1, heard := s.heard[s.next := s.tick * NANOS_PER_TICK],
               log := s.log + [Record(Composed(s, intent), Some(s.tick * NANOS_PER_TICK))])
    ensures Attempted(s, t, intent)
  {
  }

  lemma UnwrittenAttempts(s: State, intent: nat)
    requires intent in s.results && s.results[intent].received.None? && s.next !in s.pending
    ensures Attempted(s, SendOne(s, intent, StoreFailed), intent)
  {
  }

  lemma RemoteAttempts(s: State, intent: nat, outcome: Outcome)
    requires intent in s.results && s.results[intent].received.None? && s.next !in s.pending
    requires outcome != StoreFailed && s.results[intent].executor != s.results[intent].recipient
    ensures Attempted(s, SendOne(s, intent, outcome), intent)
  {
  }

  lemma SendOneAttempts(s: State, intent: nat, outcome: Outcome)
    requires LogNumbered(s) && s.next !in s.pending
    requires intent in s.results && s.results[intent].received.None?
    ensures Attempted(s, SendOne(s, intent, outcome), intent)
  {
    if outcome == StoreFailed {
      UnwrittenAttempts(s, intent);
    } else if s.results[intent].executor == s.results[intent].recipient {
      LocalReplyKnown(s, intent);
      LocalAttempts(s, SendOne(s, intent, Accepted), intent);
      assert SendOne(s, intent, outcome) == SendOne(s, intent, Accepted);
    } else {
      RemoteAttempts(s, intent, outcome);
    }
  }

  lemma NextUnused(s: State)
    requires LogNumbered(s) && PendingLogged(s)
    ensures s.next !in s.pending
  {
    forall m | m in s.pending ensures m < s.next {
      var i :| InFlightAt(s, m, i);
    }
  }

  lemma SendOneKeepsInv(s: State, intent: nat, outcome: Outcome)
    requires Inv(s) && intent in s.results && Due(s, intent)
    ensures Attempted(s, SendOne(s, intent, outcome), intent)
    ensures Inv(SendOne(s, intent, outcome))
  {
    var t := SendOne(s, intent, outcome);
    NextUnused(s);
    SendOneAttempts(s, intent, outcome);
    AttemptKeepsLog(s, t, intent);
    AttemptKeepsPending(s, t, intent);
    AttemptKeepsKnowledge(s, t, intent);
    AttemptKeepsHistory(s, t, intent);
  }

  lemma AttemptKeepsAckLogged(s: State, t: State, intent: nat, other: nat)
    requires intent in s.results && Due(s, intent) && Attempted(s, t, intent)
    requires other in s.results && AckLogged(s, other)
    ensures other in t.results && AckLogged(t, other)
  {
    var r := t.log[|s.log|];
    assert t.log == s.log + [r];
    SendTicksAppend(s.log, r, other);
    var before, after := SendTicks(s.log, other), SendTicks(t.log, other);
    if other == intent {
      assert after == before + [s.tick];
    } else {
      assert after == before;
    }
  }

  lemma AttemptKeepsLog(s: State, t: State, intent: nat)
    requires LogNumbered(s) && LogFaithful(s) && AttemptsLogged(s)
    requires intent in s.results && Due(s, intent) && Attempted(s, t, intent)
    ensures LogNumbered(t) && LogFaithful(t) && AttemptsLogged(t)
  {
    AttemptKeepsMessages(s, t, intent);
    forall other | other in t.results ensures AckLogged(t, other) {
      AttemptKeepsAckLogged(s, t, intent, other);
    }
  }

  lemma AttemptKeepsMessages(s: State, t: State, intent: nat)
    requires LogNumbered(s) && LogFaithful(s) && intent in s.results && Attempted(s, t, intent)
    ensures LogNumbered(t) && LogFaithful(t)
  {
    assert forall i :: 0 <= i < |s.log| ==> t.log[i] == t.log[..|s.log|][i];
  }

  lemma AttemptKeepsPending(s: State, t: State, intent: nat)
    requires PendingLogged(s) && HistoryKept(s) && s.next !in s.pending
    requires intent in s.results && Due(s, intent) && Attempted(s, t, intent)
    ensures PendingLogged(t)
  {
    assert t.log == s.log + [t.log[|s.log|]];
    forall m | m in t.pending ensures exists i :: InFlightAt(t, m, i) {
      if m in s.pending {
        var i :| InFlightAt(s, m, i);
        assert s.pending[m] != intent;
        assert InFlightAt(t, m, i);
      } else {
        assert InFlightAt(t, m, |s.log|);
      }
    }
  }

  lemma AttemptKeepsKnowledge(s: State, t: State, intent: nat)
    requires KnowledgeEarned(s) && HistoryKept(s) && LogNumbered(s)
    requires intent in s.results && Due(s, intent) && Attempted(s, t, intent)
    ensures KnowledgeEarned(t)
  {
    var last := |s.log|;
    assert t.log == s.log + [t.log[last]];
    forall other | other in t.results && t.results[other].received.Some?
      ensures exists i :: HeardAt(t, other, i)
    {
      if other == intent {
        assert HeardAt(t, other, last);
      } else {
        var i :| HeardAt(s, other, i);
        assert HeardAt(t, other, i);
      }
    }
    forall i | 0 <= i < |t.log| && HeardAt(t, t.log[i].message.intent, i) && t.log[i].message.intent in t.results
      ensures t.results[t.log[i].message.intent].received == Some(CeilTick(t.heard[t.log[i].message.id]))
    {
      if i < last {
        assert s.log[i].message.id != s.next;
        assert HeardAt(s, s.log[i].message.intent, i);
      }
    }
  }

  lemma AttemptKeepsHistory(s: State, t: State, intent: nat)
    requires HistoryKept(s) && PendingLogged(s) && LogNumbered(s) && intent in s.results && Attempted(s, t, intent)
    requires s.next !in s.pending
    ensures HistoryKept(t)
  {
    var last := |s.log|;
    assert t.log == s.log + [t.log[last]];
    forall m | m in t.abandoned ensures m !in t.pending && m !in t.heard && exists i :: AbandonedAt(t, m, i) {
      if m == s.next {
        StillUndelivered(s, t, intent, m);
      } else if m in s.abandoned {
        var i :| AbandonedAt(s, m, i);
        assert AbandonedAt(t, m, i);
      } else {
        var i :| InFlightAt(s, m, i);
        assert AbandonedAt(t, m, i);
      }
    }
  }

  lemma StillUndelivered(s: State, t: State, intent: nat, m: nat)
    requires HistoryKept(s) && LogNumbered(s) && intent in s.results && Attempted(s, t, intent)
    requires m == s.next && m in t.abandoned
    ensures m !in t.pending && m !in t.heard && AbandonedAt(t, m, |s.log|)
  {
    forall n | n in s.abandoned ensures n < s.next {
      var i :| AbandonedAt(s, n, i);
    }
  }

  lemma OthersStayDue(s: State, t: State, due: seq<nat>)
    requires due != [] && Ascending(due)
    requires forall intent :: intent in due ==> intent in s.results && Due(s, intent)
    requires Attempted(s, t, due[0])
    ensures forall intent :: intent in due[1..] ==> intent in t.results && Due(t, intent)
  {
    forall intent | intent in due[1..] ensures intent in t.results && Due(t, intent) {
      assert intent != due[0] && t.results[intent] == s.results[intent];
    }
  }

  /** The state and the remaining list after the first of several due orders is attempted. */
  lemma FirstAttempt(s: State, due: seq<nat>, outcomes: seq<Outcome>, t: State)
    requires Inv(s) && s.status == Running && due != [] && Ascending(due)
    requires forall id :: id in due ==> id in s.results && Due(s, id)
    requires t == SendOne(s, due[0], Head(outcomes))
    ensures Inv(t) && Attempted(s, t, due[0]) && Ascending(due[1..]) && due[0] !in due[1..]
    ensures forall id :: id in due[1..] ==> id in t.results && Due(t, id)
    ensures SendAll(s, due, outcomes) == SendAll(t, due[1..], Tail(outcomes))
  {
    SendOneKeepsInv(s, due[0], Head(outcomes));
    OthersStayDue(s, t, due);
  }

  /** Every order still waiting in the list stays due while others are attempted before it. */
  lemma {:induction false} SendAllKeepsInv(s: State, due: seq<nat>, outcomes: seq<Outcome>)
    requires Inv(s) && Ascending(due)
    requires forall intent :: intent in due ==> intent in s.results && Due(s, intent)
    ensures Inv(SendAll(s, due, outcomes))
    decreases |due|
  {
    if due != [] && s.status == Running {
      var t := SendOne(s, due[0], Head(outcomes));
      SendOneKeepsInv(s, due[0], Head(outcomes));
      OthersStayDue(s, t, due);
      SendAllKeepsInv(t, due[1..], Tail(outcomes));
    }
  }

  lemma SendPendingKeepsInv(s: State, outcomes: seq<Outcome>)
    requires Inv(s)
    ensures Inv(SendPending(s, outcomes))
  {
    SendAllKeepsInv(s, DueIntents(s), outcomes);
    FewerPendingKeepsInv(s, s.(status := Paused));
  }

  /** Another service's message is logged. */
  ghost predicate Logged(s: State, t: State, r: Record) {
    r.message.profile != AckProfile && t == s.(log := s.log + [r], next := t.next)
  }

  lemma ForeignKeepsAttempts(s: State, t: State, r: Record)
    requires Logged(s, t, r) && AttemptsLogged(s) && LogFaithful(s)
    ensures AttemptsLogged(t) && LogFaithful(t)
  {
    forall intent | intent in t.results ensures AckLogged(t, intent) {
      SendTicksAppend(s.log, r, intent);
      assert AckLogged(s, intent);
    }
  }

  lemma ForeignKeepsPending(s: State, t: State, r: Record)
    requires Logged(s, t, r) && PendingLogged(s)
    ensures PendingLogged(t)
  {
    forall m | m in t.pending ensures exists i :: InFlightAt(t, m, i) {
      var i :| InFlightAt(s, m, i);
      assert InFlightAt(t, m, i);
    }
  }

  lemma ForeignKeepsKnowledge(s: State, t: State, r: Record)
    requires Logged(s, t, r) && KnowledgeEarned(s)
    ensures KnowledgeEarned(t)
  {
    forall intent | intent in t.results && t.results[intent].received.Some?
      ensures exists i :: HeardAt(t, intent, i)
    {
      var i :| HeardAt(s, intent, i);
      assert HeardAt(t, intent, i);
    }
    forall i | 0 <= i < |t.log| && HeardAt(t, t.log[i].message.intent, i) && t.log[i].message.intent in t.results
      ensures t.results[t.log[i].message.intent].received == Some(CeilTick(t.heard[t.log[i].message.id]))
    {
      assert HeardAt(s, s.log[i].message.intent, i);
    }
  }

  lemma ForeignKeepsHistory(s: State, t: State, r: Record)
    requires Logged(s, t, r) && HistoryKept(s) && r.message.id == s.next && t.next == s.next + 1
    ensures HistoryKept(t)
  {
    forall m | m in t.abandoned ensures exists i :: AbandonedAt(t, m, i) {
      var i :| AbandonedAt(s, m, i);
      assert AbandonedAt(t, m, i);
    }
  }

  lemma ForeignKeepsInv(s: State, message: Message, deliveredNs: Option<nat>)
    requires Inv(s) && Enabled(s, Foreign(message, deliveredNs))
    ensures Inv(Apply(s, Foreign(message, deliveredNs)))
  {
    var r := Record(message, deliveredNs);
    var t := Apply(s, Foreign(message, deliveredNs));
    ForeignKeepsAttempts(s, t, r);
    ForeignKeepsPending(s, t, r);
    ForeignKeepsKnowledge(s, t, r);
    ForeignKeepsHistory(s, t, r);
  }

  lemma ApplyKeepsInv(s: State, step: Step)
    requires Inv(s) && Enabled(s, step)
    ensures Inv(Apply(s, step))
  {
    match step
    case RecordStep(issuer, executor, executedTick, result) =>
      RecordResultKeepsInv(s, issuer, executor, executedTick, result);
    case Send(outcomes) => SendPendingKeepsInv(s, outcomes);
    case Deliver(m, atNs) => DeliverKeepsInv(s, m, atNs);
    case Abort => AbandonKeepsInv(s);
    case Erase(m) => EraseKeepsInv(s, m);
    case Foreign(message, deliveredNs) => ForeignKeepsInv(s, message, deliveredNs);
    case _ => FewerPendingKeepsInv(s, Apply(s, step));
  }

  lemma {:induction false} RunKeepsInv(s: State, steps: seq<Step>)
    requires Inv(s) && Valid(s, steps)
    ensures Inv(Run(s, steps))
    decreases |steps|
  {
    if steps != [] {
      ApplyKeepsInv(s, steps[0]);
      RunKeepsInv(Apply(s, steps[0]), steps[1..]);
    }
  }
}
