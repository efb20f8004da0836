/** Bounds and settlement of impact-report delivery over whole runs. */
module ImpactSafety {
  import opened Ordered
  import opened ImpactReports

  predicate IsSend(r: Record, key: Key) {
    r.impact && r.key == key
  }

  /** The impact reports the log shows sent for one key, oldest first. */
  function Sends(log: seq<Record>, key: Key): seq<Record> {
    if log == [] then []
    else Sends(log[..|log| - 1], key) + (if IsSend(log[|log| - 1], key) then [log[|log| - 1]] else [])
  }

  function SendCount(log: seq<Record>): nat {
    if log == [] then 0
    else SendCount(log[..|log| - 1]) + (if log[|log| - 1].impact then 1 else 0)
  }

  ghost predicate Paced(sends: seq<Record>) {
    forall i :: 0 < i < |sends| ==> sends[i].created >= sends[i - 1].created + sends[i].interval
  }

  ghost predicate KeyLogged(s: State, key: Key) {
    var sends, attempt := Sends(s.log, key), AttemptOf(s, key);
    && |sends| == attempt.count <= MAX_ATTEMPTS
    && Paced(sends)
    && (sends != [] ==> attempt.tick == sends[|sends| - 1].created)
    && attempt.tick <= s.tick
  }

  ghost predicate AllLogged(s: State) {
    forall key :: KeyLogged(s, key)
  }

  ghost predicate Numbered(s: State) {
    && (forall i, j :: 0 <= i < j < |s.log| ==> s.log[i].id < s.log[j].id)
    && (forall i :: 0 <= i < |s.log| ==> s.log[i].id < s.next)
  }

  ghost predicate InFlightOnce(s: State) {
    && (forall m :: m in s.pending ==> m < s.next)
    && (forall m, n :: m in s.pending && n in s.pending && s.pending[m] == s.pending[n] ==> m == n)
  }

  /** Every key attempted belongs to a configured route and a reported impact. */
  ghost predicate KeysKnown(s: State) {
    s.attempts.Keys <= PossibleKeys(s)
  }

  function PossibleKeys(s: State): set<Key> {
    set route, report | route in s.routes && report in s.reports :: Key(route.role, route.recipient, report.intent)
  }

  ghost predicate AwaitsRecord(s: State, m: nat, i: int)
    requires m in s.pending
  {
    && 0 <= i < |s.log| && s.log[i].id == m && s.log[i].impact && !s.log[i].delivered
    && s.pending[m] == Awaited(s.log[i].key.recipient, s.log[i].key.intent)
  }

  ghost predicate PendingLogged(s: State) {
    forall m :: m in s.pending ==> exists i :: AwaitsRecord(s, m, i)
  }

  ghost predicate AbandonedAt(s: State, m: nat, i: int) {
    0 <= i < |s.log| && s.log[i].id == m && s.log[i].impact && !s.log[i].delivered
  }

  ghost predicate HeardAt(s: State, m: nat, i: int) {
    && 0 <= i < |s.log| && s.log[i].id == m && s.log[i].impact
    && Awaited(s.log[i].key.recipient, s.log[i].key.intent) in s.received
  }

  /** What is abandoned is logged, undelivered and waited for by nothing; what was heard is logged, and its
      recipient knows it. */
  ghost predicate HistoryKept(s: State) {
    && (forall m :: m in s.abandoned ==> m !in s.pending && m !in s.heard && exists i :: AbandonedAt(s, m, i))
    && (forall m :: m in s.heard ==> m !in s.pending && exists i :: HeardAt(s, m, i))
  }

  ghost predicate EarnedAt(s: State, a: Awaited, i: int) {
    && 0 <= i < |s.log| && s.log[i].impact && s.log[i].id in s.heard
    && Awaited(s.log[i].key.recipient, s.log[i].key.intent) == a
  }

  /** A recipient knows a report only if a message carrying it was heard. */
  ghost predicate KnowledgeEarned(s: State) {
    forall a :: a in s.received ==> exists i :: EarnedAt(s, a, i)
  }

  ghost predicate Inv(s: State) {
    && AllLogged(s) && Numbered(s) && InFlightOnce(s) && KeysKnown(s) && PendingLogged(s)
    && HistoryKept(s) && KnowledgeEarned(s)
  }

  lemma KnowledgeStays(s: State, t: State)
    requires KnowledgeEarned(s) && s.heard <= t.heard && |s.log| <= |t.log|
    requires forall i :: 0 <= i < |s.log| ==> t.log[i].(delivered := false) == s.log[i].(delivered := false)
    requires forall a :: a in t.received && a !in s.received ==> exists i :: EarnedAt(t, a, i)
    ensures KnowledgeEarned(t)
  {
    forall a | a in t.received && a in s.received ensures exists i :: EarnedAt(t, a, i) {
      var i :| EarnedAt(s, a, i);
      assert t.log[i].(delivered := false) == s.log[i].(delivered := false);
      assert EarnedAt(t, a, i);
    }
  }

  lemma SendsAppend(log: seq<Record>, r: Record, key: Key)
    ensures Sends(log + [r], key) == Sends(log, key) + (if IsSend(r, key) then [r] else [])
  {
    assert (log + [r])[..|log|] == log;
  }

  lemma {:induction false} MarkPointwise(log: seq<Record>, m: nat, delivered: bool)
    ensures var marked := Mark(log, m, delivered);
            && |marked| == |log|
            && (forall i :: 0 <= i < |log| ==> marked[i] == log[i] || marked[i] == log[i].(delivered := delivered))
            && (forall i :: 0 <= i < |log| && log[i].id != m ==> marked[i] == log[i])
            && ((exists i :: 0 <= i < |log| && log[i].id == m) ==>
                  exists i :: 0 <= i < |log| && log[i].id == m && marked[i].delivered == delivered)
    decreases |log|
  {
    if log != [] && log[0].id != m {
      var marked, rest := Mark(log, m, delivered), Mark(log[1..], m, delivered);
      MarkPointwise(log[1..], m, delivered);
      assert forall i :: 0 < i < |log| ==> marked[i] == rest[i - 1] && log[i] == log[1..][i - 1];
      if exists i :: 0 <= i < |log| && log[i].id == m {
        var i :| 0 <= i < |log| && log[i].id == m;
        assert log[1..][i - 1].id == m;
        var k :| 0 <= k < |rest| && log[1..][k].id == m && rest[k].delivered == delivered;
        assert log[k + 1].id == m && marked[k + 1].delivered == delivered;
      }
    }
  }

  /** Marking a numbered log changes exactly the record of that message. */
  lemma MarkOne(log: seq<Record>, m: nat, delivered: bool, i: nat)
    requires i < |log| && log[i].id == m
    requires forall j, k :: 0 <= j < k < |log| ==> log[j].id < log[k].id
    ensures Mark(log, m, delivered) == log[i := log[i].(delivered := delivered)]
  {
    var marked := Mark(log, m, delivered);
    MarkPointwise(log, m, delivered);
    assert log[i].id == m;
    var k :| 0 <= k < |log| && log[k].id == m && marked[k].delivered == delivered;
    assert k == i;
  }

  ghost predicate SameButDelivered(a: seq<Record>, b: seq<Record>) {
    |a| == |b| && forall i :: 0 <= i < |a| ==> a[i].(delivered := false) == b[i].(delivered := false)
  }

  lemma {:induction false} SendsSameButDelivered(a: seq<Record>, b: seq<Record>, key: Key)
    requires SameButDelivered(a, b)
    ensures SameButDelivered(Sends(a, key), Sends(b, key))
    decreases |a|
  {
    if a != [] {
      assert a[|a| - 1].(delivered := false) == b[|b| - 1].(delivered := false);
      SendsSameButDelivered(a[..|a| - 1], b[..|b| - 1], key);
    }
  }

  lemma FreshInv(s: State)
    requires Fresh(s)
    ensures Inv(s)
  {}

  lemma SameLogKeepsHistory(s: State, t: State)
    requires HistoryKept(s) && PendingLogged(s) && t.log == s.log && t.received == s.received && t.heard == s.heard
    requires t.abandoned <= s.abandoned + s.pending.Keys && t.abandoned !! t.pending.Keys
    requires t.pending.Keys <= s.pending.Keys
    ensures HistoryKept(t)
  {
    forall m | m in t.abandoned ensures m !in t.heard && exists i :: AbandonedAt(t, m, i) {
      if m in s.pending {
        var i :| AwaitsRecord(s, m, i);
        assert AbandonedAt(t, m, i);
      } else {
        var i :| AbandonedAt(s, m, i);
        assert AbandonedAt(t, m, i);
      }
    }
    forall m | m in t.heard ensures exists i :: HeardAt(t, m, i) {
      var i :| HeardAt(s, m, i);
      assert HeardAt(t, m, i);
    }
  }

  lemma UntouchedKeepsInv(s: State, t: State)
    requires Inv(s)
    requires t.attempts == s.attempts && t.log == s.log && t.next == s.next && t.tick >= s.tick
    requires t.routes == s.routes && s.reports <= t.reports
    requires forall m :: m in t.pending ==> m in s.pending && t.pending[m] == s.pending[m]
    requires t.received == s.received && t.heard == s.heard
    requires t.abandoned <= s.abandoned + s.pending.Keys && t.abandoned !! t.pending.Keys
    ensures Inv(t)
  {
    forall key ensures KeyLogged(t, key) {
      assert KeyLogged(s, key);
    }
    SameLogKeepsHistory(s, t);
    KnowledgeStays(s, t);
    forall key | key in t.attempts ensures key in PossibleKeys(t) {
      assert key in PossibleKeys(s);
      var route, report :| route in s.routes && report in s.reports && key == Key(route.role, route.recipient, report.intent);
      assert report in t.reports;
    }
    forall m | m in t.pending ensures exists i :: AwaitsRecord(t, m, i) {
      var i :| AwaitsRecord(s, m, i);
      assert AwaitsRecord(t, m, i);
    }
  }

  /** What one attempt for a due report writes down. */
  ghost predicate Attempted(s: State, t: State, item: Item) {
    && t.tick == s.tick && t.next == s.next + 1
    && t.attempts == s.attempts[KeyOf(item) := Attempt(s.tick, AttemptOf(s, KeyOf(item)).count + 1)]
    && |t.log| == |s.log| + 1 && t.log[..|s.log|] == s.log
    && t.log[|s.log|].(delivered := false) == Record(s.next, true, KeyOf(item), s.tick, item.route.interval, false)
  }

  lemma SendOneAttempts(s: State, item: Item, outcome: Outcome)
    requires item.route.role in s.terminals && Due(s, item)
    ensures Attempted(s, SendOne(s, item, outcome), item)
  {}

  /** What one attempt leaves as history: the message is heard at once, waited for, abandoned or dropped. */
  ghost predicate Remembered(s: State, t: State, item: Item)
    requires |t.log| > |s.log|
  {
    var m := s.next;
    && (if t.heard == s.heard then t.received == s.received
        else t.heard == s.heard + {m} && t.received == s.received + {Awaited(item.route.recipient, item.intent)})
    && t.pending.Keys <= s.pending.Keys + {m} && t.abandoned <= s.abandoned + s.pending.Keys + {m}
    && (t.abandoned == s.abandoned || t.pending == map[])
    && (m in t.pending ==> t.heard == s.heard && t.abandoned == s.abandoned)
    && (m in t.abandoned && m !in s.abandoned && m !in s.pending ==> t.heard == s.heard && !t.log[|s.log|].delivered)
  }

  lemma SendOneRemembers(s: State, item: Item, outcome: Outcome)
    requires item.route.role in s.terminals && Due(s, item) && s.next !in s.abandoned && s.next !in s.pending && s.next !in s.heard
    ensures Remembered(s, SendOne(s, item, outcome), item)
  {}

  lemma AttemptKeepsKeyLogged(s: State, t: State, item: Item, key: Key)
    requires KeyLogged(s, key) && Due(s, item) && Attempted(s, t, item)
    ensures KeyLogged(t, key)
  {
    var sent := t.log[|s.log|];
    assert t.log == s.log + [sent] && sent.key == sent.(delivered := false).key;
    SendsAppend(s.log, sent, key);
    if key == KeyOf(item) {
      assert Sends(t.log, key) == Sends(s.log, key) + [sent];
      assert sent.created == s.tick && sent.interval == item.route.interval;
    } else {
      assert Sends(t.log, key) == Sends(s.log, key);
      assert AttemptOf(t, key) == AttemptOf(s, key);
    }
  }

  lemma SendOneKeepsLogged(s: State, item: Item, outcome: Outcome)
    requires AllLogged(s) && Numbered(s) && item.route.role in s.terminals
    ensures AllLogged(SendOne(s, item, outcome)) && Numbered(SendOne(s, item, outcome))
  {
    if Due(s, item) {
      SendOneAttempts(s, item, outcome);
      forall key ensures KeyLogged(SendOne(s, item, outcome), key) {
        assert KeyLogged(s, key);
        AttemptKeepsKeyLogged(s, SendOne(s, item, outcome), item, key);
      }
    }
  }

  lemma SendOneKeepsPending(s: State, item: Item, outcome: Outcome)
    requires InFlightOnce(s) && PendingLogged(s) && item.route.role in s.terminals
    ensures InFlightOnce(SendOne(s, item, outcome)) && PendingLogged(SendOne(s, item, outcome))
  {
    var t := SendOne(s, item, outcome);
    forall m | m in t.pending ensures exists i :: AwaitsRecord(t, m, i) {
      if m in s.pending {
        var i :| AwaitsRecord(s, m, i);
        assert AwaitsRecord(t, m, i);
      } else {
        assert AwaitsRecord(t, m, |s.log|);
      }
    }
  }

  lemma AttemptKeepsHistory(s: State, t: State, item: Item)
    requires HistoryKept(s) && PendingLogged(s) && Numbered(s) && InFlightOnce(s)
    requires Attempted(s, t, item) && Remembered(s, t, item)
    ensures HistoryKept(t)
  {
    var last := |s.log|;
    assert t.log == s.log + [t.log[last]];
    assert t.log[last].(delivered := false).id == t.log[last].id && t.log[last].(delivered := false).key == t.log[last].key;
    PastIsLogged(s);
    forall m | m in t.abandoned ensures m !in t.pending && m !in t.heard && exists i :: AbandonedAt(t, m, i) {
      if m in s.abandoned {
        var i :| AbandonedAt(s, m, i);
        assert AbandonedAt(t, m, i);
      } else if m in s.pending {
        var i :| AwaitsRecord(s, m, i);
        assert AbandonedAt(t, m, i);
      } else {
        assert AbandonedAt(t, m, last);
      }
    }
    forall m | m in t.heard ensures m !in t.pending && exists i :: HeardAt(t, m, i) {
      if m in s.heard {
        var i :| HeardAt(s, m, i);
        assert HeardAt(t, m, i);
      } else {
        assert HeardAt(t, m, last);
      }
    }
  }

  lemma AttemptKeepsKnowledge(s: State, t: State, item: Item)
    requires KnowledgeEarned(s) && Attempted(s, t, item) && Remembered(s, t, item)
    ensures KnowledgeEarned(t)
  {
    var last := |s.log|;
    assert t.log == s.log + [t.log[last]];
    assert t.log[last].(delivered := false).id == s.next && t.log[last].(delivered := false).key == KeyOf(item);
    if t.heard != s.heard {
      assert EarnedAt(t, Awaited(item.route.recipient, item.intent), last);
    }
    KnowledgeStays(s, t);
  }

  lemma PastIsLogged(s: State)
    requires HistoryKept(s) && Numbered(s)
    ensures forall m :: m in s.abandoned || m in s.heard ==> m < s.next
  {
    forall m | m in s.abandoned ensures m < s.next {
      var i :| AbandonedAt(s, m, i);
    }
    forall m | m in s.heard ensures m < s.next {
      var i :| HeardAt(s, m, i);
    }
  }

  lemma SendOneKeepsInv(s: State, item: Item, outcome: Outcome)
    requires Inv(s) && item in Items(s.routes, s.terminals, s.reports)
    requires item.route.role in s.terminals
    ensures Inv(SendOne(s, item, outcome))
  {
    SendOneKeepsLogged(s, item, outcome);
    SendOneKeepsPending(s, item, outcome);
    SendOneKeepsKeys(s, item, outcome);
    SendOneKeepsHistory(s, item, outcome);
  }

  lemma SendOneKeepsHistory(s: State, item: Item, outcome: Outcome)
    requires HistoryKept(s) && KnowledgeEarned(s) && PendingLogged(s) && Numbered(s) && InFlightOnce(s)
    requires item.route.role in s.terminals
    ensures HistoryKept(SendOne(s, item, outcome)) && KnowledgeEarned(SendOne(s, item, outcome))
  {
    if Due(s, item) {
      SendOneAttempts(s, item, outcome);
      PastIsLogged(s);
      SendOneRemembers(s, item, outcome);
      AttemptKeepsHistory(s, SendOne(s, item, outcome), item);
      AttemptKeepsKnowledge(s, SendOne(s, item, outcome), item);
    }
  }

  lemma SendOneKeepsKeys(s: State, item: Item, outcome: Outcome)
    requires KeysKnown(s) && item in Items(s.routes, s.terminals, s.reports) && item.route.role in s.terminals
    ensures KeysKnown(SendOne(s, item, outcome))
  {
    ItemsKnown(s.routes, s.terminals, s.reports);
    assert KeyOf(item) in PossibleKeys(s) by {
      var report := Report(s.terminals[item.route.role], item.intent);
      assert item.route in s.routes && report in s.reports;
    }
  }

  ghost predicate SameSetting(s: State, t: State) {
    t.routes == s.routes && t.terminals == s.terminals && t.reports == s.reports && t.tick == s.tick && t.profile == s.profile
  }

  lemma FirstItem(s: State, items: seq<Item>, outcomes: seq<Outcome>)
    requires items != [] && s.status == Running && Known(items, s.terminals)
    requires forall item :: item in items ==> item in Items(s.routes, s.terminals, s.reports)
    ensures items[0].route.role in s.terminals && items[0] in Items(s.routes, s.terminals, s.reports)
    ensures var t, rest := SendOne(s, items[0], Head(outcomes)), items[1..];
            && Known(rest, s.terminals)
            && (forall item :: item in rest ==> item in Items(s.routes, s.terminals, s.reports))
            && SameSetting(s, t)
            && SendAll(s, items, outcomes) == SendAll(t, rest, if Due(s, items[0]) then Tail(outcomes) else outcomes)
  {
    assert items[0] in items;
    assert forall item :: item in items[1..] ==> item in items;
  }

  lemma {:induction false} SendAllKeepsInv(s: State, items: seq<Item>, outcomes: seq<Outcome>)
    requires Inv(s) && Known(items, s.terminals)
    requires forall item :: item in items ==> item in Items(s.routes, s.terminals, s.reports)
    ensures Inv(SendAll(s, items, outcomes)) && SameSetting(s, SendAll(s, items, outcomes))
    decreases |items|
  {
    if items != [] && s.status == Running {
      FirstItem(s, items, outcomes);
      SendOneKeepsInv(s, items[0], Head(outcomes));
      SendAllKeepsInv(SendOne(s, items[0], Head(outcomes)), items[1..], if Due(s, items[0]) then Tail(outcomes) else outcomes);
    }
  }

  lemma MarkedKeepsLogged(s: State, t: State, key: Key)
    requires KeyLogged(s, key) && SameButDelivered(s.log, t.log) && t.attempts == s.attempts && t.tick == s.tick
    ensures KeyLogged(t, key)
  {
    SendsSameButDelivered(s.log, t.log, key);
    var a, b := Sends(s.log, key), Sends(t.log, key);
    assert forall i :: 0 <= i < |a| ==>
      a[i].(delivered := false).created == b[i].(delivered := false).created
      && a[i].(delivered := false).interval == b[i].(delivered := false).interval;
  }

  /** A record's mark changes, and with it what waits, is abandoned, heard or received. */
  ghost predicate Remarked(s: State, t: State, m: nat, i: nat) {
    && i < |s.log| && s.log[i].id == m && |t.log| == |s.log|
    && t == s.(status := t.status, log := s.log[i := s.log[i].(delivered := t.log[i].delivered)], pending := t.pending,
               abandoned := t.abandoned, heard := t.heard, received := t.received)
    && m !in t.pending && m !in t.abandoned
    && t.pending == s.pending - {m} && t.abandoned <= s.abandoned
    && (if t.heard == s.heard then t.received == s.received
        else t.heard == s.heard + {m} && s.log[i].impact
             && t.received == s.received + {Awaited(s.log[i].key.recipient, s.log[i].key.intent)})
  }

  lemma RemarkKeepsHistory(s: State, t: State, m: nat, i: nat)
    requires HistoryKept(s) && Remarked(s, t, m, i)
    ensures HistoryKept(t)
  {
    forall n | n in t.abandoned ensures n !in t.heard && exists k :: AbandonedAt(t, n, k) {
      var k :| AbandonedAt(s, n, k);
      assert AbandonedAt(t, n, k);
    }
    forall n | n in t.heard ensures exists k :: HeardAt(t, n, k) {
      if n in s.heard {
        var k :| HeardAt(s, n, k);
        assert HeardAt(t, n, k);
      } else {
        assert HeardAt(t, n, i);
      }
    }
  }

  lemma RemarkKeepsKnowledge(s: State, t: State, m: nat, i: nat)
    requires KnowledgeEarned(s) && Remarked(s, t, m, i)
    ensures KnowledgeEarned(t)
  {
    if t.heard != s.heard {
      assert EarnedAt(t, Awaited(s.log[i].key.recipient, s.log[i].key.intent), i);
    }
    KnowledgeStays(s, t);
  }

  lemma RemarkKeepsInv(s: State, t: State, m: nat, i: nat)
    requires Inv(s) && Remarked(s, t, m, i)
    ensures Inv(t)
  {
    forall key ensures KeyLogged(t, key) {
      assert KeyLogged(s, key);
      MarkedKeepsLogged(s, t, key);
    }
    forall n | n in t.pending ensures exists k :: AwaitsRecord(t, n, k) {
      var k :| AwaitsRecord(s, n, k);
      assert AwaitsRecord(t, n, k);
    }
    RemarkKeepsHistory(s, t, m, i);
    RemarkKeepsKnowledge(s, t, m, i);
  }

  lemma LateIsLogged(s: State, m: nat)
    requires Inv(s) && m in s.abandoned
    ensures exists i :: AbandonedAt(s, m, i) && Remarked(s, Apply(s, Deliver(m)), m, i)
              && Apply(s, Deliver(m))
                 == s.(log := s.log[i := s.log[i].(delivered := true)], abandoned := s.abandoned - {m})
  {
    var i :| AbandonedAt(s, m, i);
    MarkOne(s.log, m, true, i);
  }

  lemma DeliverKeepsInv(s: State, m: nat)
    requires Inv(s) && Enabled(s, Deliver(m))
    ensures Inv(Apply(s, Deliver(m)))
  {
    var t := Apply(s, Deliver(m));
    if m in s.pending {
      var i :| AwaitsRecord(s, m, i);
      MarkOne(s.log, m, true, i);
      assert Remarked(s, t, m, i);
      RemarkKeepsInv(s, t, m, i);
    } else {
      LateIsLogged(s, m);
      var i :| AbandonedAt(s, m, i) && Remarked(s, t, m, i);
      RemarkKeepsInv(s, t, m, i);
    }
  }

  lemma EraseKeepsInv(s: State, m: nat)
    requires Inv(s)
    ensures Inv(Apply(s, Erase(m)))
  {
    var t := Apply(s, Erase(m));
    MarkPointwise(s.log, m, false);
    if i: nat :| i < |s.log| && s.log[i].id == m && s.log[i].delivered {
      MarkOne(s.log, m, false, i);
      forall n | n in s.pending ensures n != m {
        var k :| AwaitsRecord(s, n, k);
      }
      forall n | n in s.abandoned ensures n != m {
        var k :| AbandonedAt(s, n, k);
      }
      RemarkKeepsInv(s, t, m, i);
    } else {
      assert t.log == s.log;
      UntouchedKeepsInv(s, t);
    }
  }

  lemma ForeignKeepsLogged(s: State, t: State, r: Record, key: Key)
    requires KeyLogged(s, key) && t == s.(log := s.log + [r], next := t.next) && !IsSend(r, key)
    ensures KeyLogged(t, key)
  {
    SendsAppend(s.log, r, key);
  }

  lemma ForeignKeepsInv(s: State, key: Key, delivered: bool)
    requires Inv(s)
    ensures Inv(Apply(s, Foreign(key, delivered)))
  {
    var t := Apply(s, Foreign(key, delivered));
    forall other ensures KeyLogged(t, other) {
      assert KeyLogged(s, other);
      ForeignKeepsLogged(s, t, t.log[|s.log|], other);
    }
    forall m | m in t.pending ensures exists i :: AwaitsRecord(t, m, i) {
      var i :| AwaitsRecord(s, m, i);
      assert AwaitsRecord(t, m, i);
    }
    LongerLogKeepsHistory(s, t);
    KnowledgeStays(s, t);
  }

  lemma LongerLogKeepsHistory(s: State, t: State)
    requires HistoryKept(s) && s.log <= t.log && t.pending == s.pending
    requires t.received == s.received && t.heard == s.heard && t.abandoned == s.abandoned
    ensures HistoryKept(t)
  {
    forall m | m in t.abandoned ensures exists i :: AbandonedAt(t, m, i) {
      var i :| AbandonedAt(s, m, i);
      assert AbandonedAt(t, m, i);
    }
    forall m | m in t.heard ensures exists i :: HeardAt(t, m, i) {
      var i :| HeardAt(s, m, i);
      assert HeardAt(t, m, i);
    }
  }

  lemma ApplyKeepsInv(s: State, step: Step)
    requires Inv(s) && Enabled(s, step)
    ensures Inv(Apply(s, step)) && Apply(s, step).routes == s.routes && s.reports <= Apply(s, step).reports
  {
    match step
    case Send(outcomes) =>
      ItemsKnown(s.routes, s.terminals, s.reports);
      SendAllKeepsInv(s, Items(s.routes, s.terminals, s.reports), outcomes);
      UntouchedKeepsInv(s, s.(status := Paused));
    case Deliver(m) => DeliverKeepsInv(s, m);
    case Erase(m) => EraseKeepsInv(s, m);
    case Foreign(key, delivered) => ForeignKeepsInv(s, key, delivered);
    case _ => UntouchedKeepsInv(s, Apply(s, step));
  }

  lemma {:induction false} RunKeepsInv(s: State, steps: seq<Step>)
    requires Inv(s) && Valid(s, steps)
    ensures Inv(Run(s, steps)) && Run(s, steps).routes == s.routes && s.reports <= Run(s, steps).reports
    decreases |steps|
  {
    if steps != [] {
      ApplyKeepsInv(s, steps[0]);
      RunKeepsInv(Apply(s, steps[0]), steps[1..]);
    }
  }

  /** The impact reports sent for any of these keys. */
  function SendCountIn(log: seq<Record>, keys: set<Key>): nat {
    if log == [] then 0
    else SendCountIn(log[..|log| - 1], keys) + (if log[|log| - 1].impact && log[|log| - 1].key in keys then 1 else 0)
  }

  lemma {:induction false} SplitKey(log: seq<Record>, keys: set<Key>, key: Key)
    requires key in keys
    ensures SendCountIn(log, keys) == SendCountIn(log, keys - {key}) + |Sends(log, key)|
  {
    if log != [] {
      SplitKey(log[..|log| - 1], keys, key);
    }
  }

  lemma {:induction false} NoKeysNoSends(log: seq<Record>)
    ensures SendCountIn(log, {}) == 0
  {
    if log != [] {
      NoKeysNoSends(log[..|log| - 1]);
    }
  }

  lemma {:induction false} FourPerKey(log: seq<Record>, keys: set<Key>)
    requires forall key :: key in keys ==> |Sends(log, key)| <= MAX_ATTEMPTS
    ensures SendCountIn(log, keys) <= MAX_ATTEMPTS * |keys|
    decreases |keys|
  {
    if keys == {} {
      NoKeysNoSends(log);
    } else {
      var key :| key in keys;
      SplitKey(log, keys, key);
      FourPerKey(log, keys - {key});
    }
  }

  lemma {:induction false} AllSendsCounted(log: seq<Record>, keys: set<Key>)
    requires forall key :: key !in keys ==> Sends(log, key) == []
    ensures SendCount(log) == SendCountIn(log, keys)
  {
    if log != [] {
      forall key | key !in keys ensures Sends(log[..|log| - 1], key) == [] {
        assert Sends(log, key) == [];
      }
      AllSendsCounted(log[..|log| - 1], keys);
      assert log[|log| - 1].impact ==> Sends(log, log[|log| - 1].key) != [];
    }
  }

  /** In every state any run reaches: at most four reports were ever sent for a role, recipient and
      order, each at least its route's interval after the one before; no two are in flight to one
      recipient for one order; and all sends together are at most four for each key there is. */
  lemma SendsBoundedAndPaced(s: State, steps: seq<Step>)
    requires Fresh(s) && Valid(s, steps)
    ensures var t := Run(s, steps);
            && (forall key :: |Sends(t.log, key)| <= MAX_ATTEMPTS)
            && (forall key, i :: 0 < i < |Sends(t.log, key)| ==>
                  Sends(t.log, key)[i].created >= Sends(t.log, key)[i - 1].created + Sends(t.log, key)[i].interval)
            && (forall m, n :: m in t.pending && n in t.pending && t.pending[m] == t.pending[n] ==> m == n)
            && SendCount(t.log) <= MAX_ATTEMPTS * |PossibleKeys(t)|
  {
    FreshInv(s);
    RunKeepsInv(s, steps);
    var t := Run(s, steps);
    forall key ensures |Sends(t.log, key)| <= MAX_ATTEMPTS && Paced(Sends(t.log, key))
      ensures key !in PossibleKeys(t) ==> Sends(t.log, key) == []
    {
      assert KeyLogged(t, key);
    }
    FourPerKey(t.log, PossibleKeys(t));
    AllSendsCounted(t.log, PossibleKeys(t));
  }

  /** The delivery of a report in flight marks the one logged record it is about, which the scan then
      finds, and tells its recipient. */
  lemma DeliveryIsSeen(s: State, m: nat)
    requires Inv(s) && m in s.pending
    ensures exists i :: AwaitsRecord(s, m, i)
              && Apply(s, Deliver(m)) == s.(log := s.log[i := s.log[i].(delivered := true)], pending := s.pending - {m},
                                            received := s.received + {s.pending[m]}, heard := s.heard + {m})
              && Delivered(Apply(s, Deliver(m)), s.log[i].key)
              && s.pending[m] == Awaited(s.log[i].key.recipient, s.log[i].key.intent)
  {
    var i :| AwaitsRecord(s, m, i);
    MarkOne(s.log, m, true, i);
    var t := Apply(s, Deliver(m));
    assert t.log[i].delivered && t.log[i].impact && t.log[i].key == s.log[i].key;
  }

  lemma NotDueStays(s: State, sent: Item, outcome: Outcome, item: Item)
    requires InFlightOnce(s) && s.status == Running
    requires sent.route.role in s.terminals && item.route.interval > 0
    requires !Due(s, item) || item == sent
    requires SendOne(s, sent, outcome).status == Running
    ensures !Due(SendOne(s, sent, outcome), item)
  {
    var t := SendOne(s, sent, outcome);
    if Due(s, sent) {
      if Delivered(s, KeyOf(item)) {
        var i :| 0 <= i < |s.log| && s.log[i].delivered && s.log[i].impact && s.log[i].key == KeyOf(item);
        assert t.log[i] == s.log[i];
      } else if InFlight(s, KeyOf(item)) {
        var m :| m in s.pending && s.pending[m] == Awaited(item.route.recipient, item.intent);
        assert m in t.pending && t.pending[m] == s.pending[m];
      }
    }
  }

  lemma {:induction false} NotDueStaysThrough(s: State, items: seq<Item>, outcomes: seq<Outcome>, item: Item)
    requires InFlightOnce(s) && PendingLogged(s) && Known(items, s.terminals) && item.route.interval > 0
    requires !Due(s, item) && SendAll(s, items, outcomes).status == Running
    ensures !Due(SendAll(s, items, outcomes), item)
    decreases |items|
  {
    if items != [] {
      assert items[0] in items;
      var t, left := SendOne(s, items[0], Head(outcomes)), if Due(s, items[0]) then Tail(outcomes) else outcomes;
      assert t.status == Running;
      SendOneKeepsPending(s, items[0], Head(outcomes));
      NotDueStays(s, items[0], Head(outcomes), item);
      NotDueStaysThrough(t, items[1..], left, item);
    }
  }

  lemma {:induction false} SendAllClears(s: State, items: seq<Item>, outcomes: seq<Outcome>, item: Item)
    requires InFlightOnce(s) && PendingLogged(s) && Known(items, s.terminals)
    requires item in items && item.route.interval > 0
    requires s.status == Running && SendAll(s, items, outcomes).status == Running
    ensures !Due(SendAll(s, items, outcomes), item)
    decreases |items|
  {
    assert items[0] in items;
    var t, left := SendOne(s, items[0], Head(outcomes)), if Due(s, items[0]) then Tail(outcomes) else outcomes;
    assert t.status == Running;
    SendOneKeepsPending(s, items[0], Head(outcomes));
    if item == items[0] {
      NotDueStays(s, items[0], Head(outcomes), item);
      NotDueStaysThrough(t, items[1..], left, item);
    } else {
      SendAllClears(t, items[1..], left, item);
    }
  }

  /** No send is owed after a pass that leaves the game running: every report each route carries is
      then delivered, in flight, exhausted, or waiting out its interval. */
  lemma PassLeavesNothingDue(s: State, outcomes: seq<Outcome>)
    requires Inv(s) && s.status == Running && s.profile
    requires forall route :: route in s.routes ==> route.interval > 0
    requires SendReports(s, outcomes).status == Running
    ensures var t := SendReports(s, outcomes);
            forall route, report ::
              (route in t.routes && report in t.reports && route.role in t.terminals
               && t.terminals[route.role] == report.source) ==>
                !Due(t, Item(route, report.intent))
  {
    var items := Items(s.routes, s.terminals, s.reports);
    ItemsKnown(s.routes, s.terminals, s.reports);
    if s.routes != [] {
      SendAllKeepsInv(s, items, outcomes);
      forall item | item in items ensures !Due(SendReports(s, outcomes), item) {
        SendAllClears(s, items, outcomes, item);
      }
    }
    var t := SendReports(s, outcomes);
    forall route, report | route in t.routes && report in t.reports && route.role in t.terminals
      && t.terminals[route.role] == report.source
      ensures !Due(t, Item(route, report.intent))
    {
      assert ToCarry(Item(route, report.intent), t.routes, t.terminals, t.reports);
    }
  }

  lemma {:induction false} NothingDueNoSend(s: State, items: seq<Item>, outcomes: seq<Outcome>)
    requires Known(items, s.terminals) && (forall item :: item in items ==> !Due(s, item))
    ensures SendAll(s, items, outcomes) == s
    decreases |items|
  {
    if items != [] && s.status == Running {
      assert items[0] in items;
      NothingDueNoSend(s, items[1..], outcomes);
    }
  }

  lemma SettledSendsNothing(s: State, outcomes: seq<Outcome>)
    requires Settled(s) && s.profile
    ensures SendReports(s, outcomes) == s
  {
    SettledItems(s);
    var items := Items(s.routes, s.terminals, s.reports);
    ItemsKnown(s.routes, s.terminals, s.reports);
    NothingDueNoSend(s, items, outcomes);
  }
}
