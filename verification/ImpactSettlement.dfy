/** How long a report can stay unsettled on its route, over every run of the radio clock. */
module ImpactSettlement {
  import opened Ordered
  import opened ImpactReports
  import opened ImpactSafety
  import opened ImpactRuns

  /** One radio tick: anything but another tick or the loss of a recorded delivery happens, in any order and
      with any number of extra passes, and then the tick's own pass runs. */
  datatype Round = Round(before: seq<Step>, outcomes: seq<Outcome>)

  function Started(s: State): State {
    s.(tick := s.tick + 1, status := Running)
  }

  ghost predicate WithinTick(steps: seq<Step>) {
    forall k :: 0 <= k < |steps| ==> !steps[k].Tick? && !steps[k].Erase?
  }

  /** No report is still in flight lifetime ticks after it was created. */
  ghost predicate Expiring(s: State, lifetime: nat) {
    forall i :: 0 <= i < |s.log| && s.log[i].id in s.pending ==> s.tick < s.log[i].created + lifetime
  }

  /** At its pass, the item is one of the reports to carry. */
  ghost predicate RoundValid(s: State, r: Round, lifetime: nat, item: Item) {
    && WithinTick(r.before) && Valid(Started(s), r.before)
    && (var u := Run(Started(s), r.before); Expiring(u, lifetime) && item in AllItems(u))
  }

  ghost function AfterRound(s: State, r: Round, lifetime: nat, item: Item): State
    requires RoundValid(s, r, lifetime, item)
  {
    SendReports(Run(Started(s), r.before), r.outcomes)
  }

  ghost predicate RoundsValid(s: State, rounds: seq<Round>, lifetime: nat, item: Item)
    decreases |rounds|
  {
    rounds == [] || (RoundValid(s, rounds[0], lifetime, item)
                     && RoundsValid(AfterRound(s, rounds[0], lifetime, item), rounds[1..], lifetime, item))
  }

  ghost function AfterRounds(s: State, rounds: seq<Round>, lifetime: nat, item: Item): State
    requires RoundsValid(s, rounds, lifetime, item)
    decreases |rounds|
  {
    if rounds == [] then s
    else AfterRounds(AfterRound(s, rounds[0], lifetime, item), rounds[1..], lifetime, item)
  }

  function Failed(s: State): nat {
    if s.status == Paused then 1 else 0
  }

  /** The ticks whose pass was cut short or skipped: the profile is missing, a write failed, or a pause. */
  ghost function FailedTicks(s: State, rounds: seq<Round>, lifetime: nat, item: Item): nat
    requires RoundsValid(s, rounds, lifetime, item)
    decreases |rounds|
  {
    if rounds == [] then 0
    else
      var t := AfterRound(s, rounds[0], lifetime, item);
      Failed(t) + FailedTicks(t, rounds[1..], lifetime, item)
  }

  function Times(n: nat, step: nat): nat {
    if n == 0 then 0 else step + Times(n - 1, step)
  }

  // ---- Rivals -------------------------------------------------------------------------------

  /** A report for the same recipient and order from another role. Only one message about an order may be
      in flight to a recipient, so rivals delay each other. */
  predicate IsRival(r: Record, key: Key) {
    r.impact && r.key != key && r.key.recipient == key.recipient && r.key.intent == key.intent
  }

  function Rivals(log: seq<Record>, key: Key): nat {
    if log == [] then 0 else Rivals(log[..|log| - 1], key) + (if IsRival(log[|log| - 1], key) then 1 else 0)
  }

  lemma RivalsAppend(log: seq<Record>, r: Record, key: Key)
    ensures Rivals(log + [r], key) == Rivals(log, key) + (if IsRival(r, key) then 1 else 0)
  {
    assert (log + [r])[..|log|] == log;
  }

  lemma {:induction false} SameRivals(a: seq<Record>, b: seq<Record>, key: Key)
    requires SameButDelivered(a, b)
    ensures Rivals(a, key) == Rivals(b, key)
    decreases |a|
  {
    if a != [] {
      assert a[|a| - 1].(delivered := false) == b[|b| - 1].(delivered := false);
      assert a[|a| - 1].(delivered := false).key == a[|a| - 1].key;
      assert b[|b| - 1].(delivered := false).key == b[|b| - 1].key;
      SameRivals(a[..|a| - 1], b[..|b| - 1], key);
    }
  }

  lemma {:induction false} RivalCounted(log: seq<Record>, key: Key, i: nat)
    requires i < |log| && IsRival(log[i], key)
    ensures Rivals(log, key) >= 1
    decreases |log|
  {
    if i < |log| - 1 {
      RivalCounted(log[..|log| - 1], key, i);
    }
  }

  function RivalKeys(s: State, key: Key): set<Key> {
    set k | k in PossibleKeys(s) && k != key && k.recipient == key.recipient && k.intent == key.intent
  }

  lemma {:induction false} RivalsInKeys(log: seq<Record>, key: Key, keys: set<Key>)
    requires forall i :: 0 <= i < |log| && IsRival(log[i], key) ==> log[i].key in keys
    ensures Rivals(log, key) <= SendCountIn(log, keys)
    decreases |log|
  {
    if log != [] {
      RivalsInKeys(log[..|log| - 1], key, keys);
    }
  }

  lemma {:induction false} LoggedIsSent(log: seq<Record>, i: nat)
    requires i < |log| && log[i].impact
    ensures Sends(log, log[i].key) != []
    decreases |log|
  {
    if i < |log| - 1 {
      assert log[..|log| - 1][i] == log[i];
      LoggedIsSent(log[..|log| - 1], i);
    }
  }

  /** Each rival key sends at most four times. */
  lemma RivalsBounded(s: State, key: Key)
    requires Inv(s)
    ensures Rivals(s.log, key) <= MAX_ATTEMPTS * |RivalKeys(s, key)|
  {
    var keys := RivalKeys(s, key);
    forall i: nat | i < |s.log| && IsRival(s.log[i], key) ensures s.log[i].key in keys {
      LoggedIsSent(s.log, i);
      assert KeyLogged(s, s.log[i].key);
    }
    RivalsInKeys(s.log, key, keys);
    forall k | k in keys ensures |Sends(s.log, k)| <= MAX_ATTEMPTS {
      assert KeyLogged(s, k);
    }
    FourPerKey(s.log, keys);
  }

  // ---- What is in flight is the last attempt of its key -----------------------------------------

  ghost predicate PendingIsLast(s: State) {
    forall m, i :: m in s.pending && AwaitsRecord(s, m, i) ==> AttemptOf(s, s.log[i].key).tick == s.log[i].created
  }

  lemma SendOneKeepsLast(s: State, item: Item, outcome: Outcome)
    requires Numbered(s) && InFlightOnce(s) && PendingIsLast(s) && item.route.role in s.terminals
    ensures PendingIsLast(SendOne(s, item, outcome))
  {
    var t := SendOne(s, item, outcome);
    if Due(s, item) {
      forall m, i | m in t.pending && AwaitsRecord(t, m, i)
        ensures AttemptOf(t, t.log[i].key).tick == t.log[i].created
      {
        if i < |s.log| {
          assert AwaitsRecord(s, m, i);
          assert s.log[i].key != KeyOf(item);
        }
      }
    }
  }

  lemma {:induction false} SendAllKeepsLast(s: State, items: seq<Item>, outcomes: seq<Outcome>)
    requires Inv(s) && PendingIsLast(s) && Known(items, s.terminals)
    requires forall item :: item in items ==> item in AllItems(s)
    ensures PendingIsLast(SendAll(s, items, outcomes))
    decreases |items|
  {
    if items != [] && s.status == Running {
      FirstItem(s, items, outcomes);
      SendOneKeepsLast(s, items[0], Head(outcomes));
      SendOneKeepsInv(s, items[0], Head(outcomes));
      SendAllKeepsLast(SendOne(s, items[0], Head(outcomes)), items[1..], if Due(s, items[0]) then Tail(outcomes) else outcomes);
    }
  }

  lemma MarkKeepsLast(s: State, t: State, m: nat, delivered: bool)
    requires Numbered(s) && PendingLogged(s) && PendingIsLast(s)
    requires t.log == Mark(s.log, m, delivered) && t.attempts == s.attempts
    requires forall n :: n in t.pending ==> n in s.pending && t.pending[n] == s.pending[n]
    ensures PendingIsLast(t)
  {
    MarkPointwise(s.log, m, delivered);
    forall n, i | n in t.pending && AwaitsRecord(t, n, i)
      ensures AttemptOf(t, t.log[i].key).tick == t.log[i].created
    {
      var k :| AwaitsRecord(s, n, k);
      assert k == i;
    }
  }

  // ---- Keeping up -------------------------------------------------------------------------------

  /** The tick by which attempt number n + 1 comes: n gaps after the first, a tick for each failed one, and a
      lifetime for each rival sent. */
  ghost function Deadline(s: State, key: Key, n: nat, b: Bound): nat {
    b.first + Times(n, b.gap) + b.failed + Times(Rivals(s.log, key), b.lifetime)
  }

  datatype Bound = Bound(first: nat, gap: nat, lifetime: nat, failed: nat)

  ghost predicate KeepsUp(s: State, key: Key, b: Bound) {
    !Delivered(s, key) ==>
      && 1 <= AttemptOf(s, key).count <= MAX_ATTEMPTS
      && AttemptOf(s, key).tick <= Deadline(s, key, AttemptOf(s, key).count - 1, b)
  }

  ghost predicate NotOverdue(s: State, key: Key, b: Bound) {
    !Delivered(s, key) && AttemptOf(s, key).count < MAX_ATTEMPTS ==>
      s.tick <= Deadline(s, key, AttemptOf(s, key).count, b)
  }

  ghost predicate RivalsInTime(s: State, key: Key, b: Bound) {
    !Delivered(s, key) && AttemptOf(s, key).count < MAX_ATTEMPTS ==>
      forall m, i :: m in s.pending && AwaitsRecord(s, m, i) && IsRival(s.log[i], key) ==>
        s.log[i].created + b.lifetime <= Deadline(s, key, AttemptOf(s, key).count, b)
  }

  ghost predicate InTime(s: State, key: Key, b: Bound) {
    KeepsUp(s, key, b) && NotOverdue(s, key, b) && RivalsInTime(s, key, b)
  }

  lemma AwaitedKey(s: State, m: nat, i: int, key: Key)
    requires m in s.pending && AwaitsRecord(s, m, i) && s.pending[m] == Awaited(key.recipient, key.intent)
    ensures s.log[i].key == key || IsRival(s.log[i], key)
  {
  }

  /** A due report has nothing in flight for its order and recipient. */
  lemma NoRivalInFlight(s: State, t: State, item: Item, m: nat, i: int)
    requires Numbered(s) && InFlightOnce(s) && Due(s, item) && Attempted(s, t, item)
    requires m in t.pending && AwaitsRecord(t, m, i)
    requires forall n :: n in t.pending && n != s.next ==> n in s.pending && t.pending[n] == s.pending[n]
    ensures !IsRival(t.log[i], KeyOf(item))
  {
    var sent := t.log[|s.log|];
    assert t.log == s.log + [sent] && sent.(delivered := false).key == sent.key == KeyOf(item);
    if i < |s.log| {
      assert m != s.next;
    }
  }

  /** The attempt of the key itself. */
  lemma OwnAttemptInTime(s: State, item: Item, outcome: Outcome, key: Key, b: Bound)
    requires Inv(s) && item.route.role in s.terminals && Due(s, item) && KeyOf(item) == key && InTime(s, key, b)
    ensures InTime(SendOne(s, item, outcome), key, b)
  {
    var t := SendOne(s, item, outcome);
    SendOneAttempts(s, item, outcome);
    assert forall n :: n in t.pending && n != s.next ==> n in s.pending && t.pending[n] == s.pending[n];
    CountedInTime(s, t, item, key, b);
  }

  lemma CountedInTime(s: State, t: State, item: Item, key: Key, b: Bound)
    requires Numbered(s) && InFlightOnce(s) && Due(s, item) && KeyOf(item) == key && InTime(s, key, b)
    requires Attempted(s, t, item)
    requires forall n :: n in t.pending && n != s.next ==> n in s.pending && t.pending[n] == s.pending[n]
    ensures InTime(t, key, b)
  {
    var sent := t.log[|s.log|];
    assert t.log == s.log + [sent] && sent.(delivered := false).key == sent.key == key;
    RivalsAppend(s.log, sent, key);
    forall m, i | m in t.pending && AwaitsRecord(t, m, i) ensures !IsRival(t.log[i], key) {
      NoRivalInFlight(s, t, item, m, i);
    }
  }

  /** A record for another key is added; the key's own attempts and the clock stay. */
  ghost predicate Added(s: State, t: State, sent: Record, key: Key) {
    && t.log == s.log + [sent] && sent.key != key && sent.created == s.tick && sent.id == s.next && t.tick == s.tick
    && AttemptOf(t, key) == AttemptOf(s, key) && Delivered(t, key) == Delivered(s, key)
    && Rivals(t.log, key) == Rivals(s.log, key) + (if IsRival(sent, key) then 1 else 0)
    && (forall n :: n in t.pending && n != s.next ==> n in s.pending && t.pending[n] == s.pending[n])
  }

  lemma AddedDelaysDeadline(s: State, t: State, sent: Record, key: Key, n: nat, b: Bound)
    requires Added(s, t, sent, key)
    ensures Deadline(t, key, n, b) == Deadline(s, key, n, b) + (if IsRival(sent, key) then b.lifetime else 0)
  {
  }

  lemma AddedInTime(s: State, t: State, sent: Record, key: Key, b: Bound)
    requires Numbered(s) && Added(s, t, sent, key) && InTime(s, key, b)
    ensures InTime(t, key, b)
  {
    var count := AttemptOf(s, key).count;
    AddedDelaysDeadline(s, t, sent, key, count, b);
    if count >= 1 {
      AddedDelaysDeadline(s, t, sent, key, count - 1, b);
    }
    forall m, i | !Delivered(t, key) && count < MAX_ATTEMPTS && m in t.pending && AwaitsRecord(t, m, i) && IsRival(t.log[i], key)
      ensures t.log[i].created + b.lifetime <= Deadline(t, key, count, b)
    {
      if i < |s.log| {
        assert AwaitsRecord(s, m, i);
      }
    }
  }

  /** The attempt of another key, a rival or not. */
  lemma OtherAttemptInTime(s: State, item: Item, outcome: Outcome, key: Key, b: Bound)
    requires Inv(s) && item.route.role in s.terminals && Due(s, item) && KeyOf(item) != key && InTime(s, key, b)
    ensures InTime(SendOne(s, item, outcome), key, b)
  {
    var t := SendOne(s, item, outcome);
    OtherAttemptAdds(s, item, outcome, key);
    AddedInTime(s, t, t.log[|s.log|], key, b);
  }

  lemma OtherAttemptAdds(s: State, item: Item, outcome: Outcome, key: Key)
    requires item.route.role in s.terminals && Due(s, item) && KeyOf(item) != key
    ensures var t := SendOne(s, item, outcome); |t.log| == |s.log| + 1 && Added(s, t, t.log[|s.log|], key)
  {
    var t := SendOne(s, item, outcome);
    SendOneAttempts(s, item, outcome);
    var sent := t.log[|s.log|];
    assert t.log == s.log + [sent];
    assert sent.(delivered := false).key == sent.key && sent.(delivered := false).created == sent.created
           && sent.(delivered := false).id == sent.id;
    RivalsAppend(s.log, sent, key);
    OtherAttemptKeepsDelivery(s, t, sent, key);
  }

  lemma OtherAttemptKeepsDelivery(s: State, t: State, sent: Record, key: Key)
    requires t.log == s.log + [sent] && sent.key != key
    ensures Delivered(t, key) == Delivered(s, key)
  {
    if Delivered(s, key) {
      var i :| 0 <= i < |s.log| && s.log[i].delivered && s.log[i].impact && s.log[i].key == key;
      assert t.log[i] == s.log[i];
    }
  }

  lemma {:induction false} SendAllInTime(s: State, items: seq<Item>, outcomes: seq<Outcome>, key: Key, b: Bound)
    requires Inv(s) && Known(items, s.terminals) && InTime(s, key, b)
    requires forall item :: item in items ==> item in AllItems(s)
    ensures InTime(SendAll(s, items, outcomes), key, b)
    decreases |items|
  {
    if items != [] && s.status == Running {
      FirstItem(s, items, outcomes);
      var t := SendOne(s, items[0], Head(outcomes));
      if Due(s, items[0]) {
        if KeyOf(items[0]) == key {
          OwnAttemptInTime(s, items[0], Head(outcomes), key, b);
        } else {
          OtherAttemptInTime(s, items[0], Head(outcomes), key, b);
        }
      }
      SendOneKeepsInv(s, items[0], Head(outcomes));
      SendAllInTime(t, items[1..], if Due(s, items[0]) then Tail(outcomes) else outcomes, key, b);
    }
  }

  /** Any step that sends nothing and takes no delivery back. */
  lemma OtherStepInTime(s: State, t: State, key: Key, b: Bound)
    requires InTime(s, key, b) && t.attempts == s.attempts && t.tick == s.tick
    requires |t.log| == |s.log| && SameButDelivered(s.log, t.log)
    requires forall i :: 0 <= i < |s.log| && s.log[i].delivered ==> t.log[i].delivered
    requires forall m :: m in t.pending ==> m in s.pending && t.pending[m] == s.pending[m]
    ensures InTime(t, key, b)
  {
    SameRivals(s.log, t.log, key);
    if Delivered(s, key) {
      var i :| 0 <= i < |s.log| && s.log[i].delivered && s.log[i].impact && s.log[i].key == key;
      assert t.log[i].(delivered := false) == s.log[i].(delivered := false);
      assert t.log[i].delivered && t.log[i].impact && t.log[i].key == key;
    }
    forall m, i | !Delivered(t, key) && AttemptOf(t, key).count < MAX_ATTEMPTS
      && m in t.pending && AwaitsRecord(t, m, i) && IsRival(t.log[i], key)
      ensures t.log[i].created + b.lifetime <= Deadline(t, key, AttemptOf(t, key).count, b)
    {
      assert t.log[i].(delivered := false) == s.log[i].(delivered := false);
      assert t.log[i].created == s.log[i].created && t.log[i].key == s.log[i].key && t.log[i].id == s.log[i].id;
      assert AwaitsRecord(s, m, i) && IsRival(s.log[i], key);
    }
  }

  lemma ForeignInTime(s: State, other: Key, delivered: bool, key: Key, b: Bound)
    requires InTime(s, key, b) && InFlightOnce(s) && Numbered(s)
    ensures InTime(Apply(s, Foreign(other, delivered)), key, b)
  {
    var t := Apply(s, Foreign(other, delivered));
    var r := t.log[|s.log|];
    RivalsAppend(s.log, r, key);
    if Delivered(s, key) {
      var i :| 0 <= i < |s.log| && s.log[i].delivered && s.log[i].impact && s.log[i].key == key;
      assert t.log[i] == s.log[i];
    }
    forall m, i | m in t.pending && AwaitsRecord(t, m, i) && IsRival(t.log[i], key) ensures AwaitsRecord(s, m, i) {
    }
  }

  lemma DeliverInTime(s: State, m: nat, key: Key, b: Bound)
    requires Inv(s) && Enabled(s, Deliver(m)) && InTime(s, key, b)
    ensures InTime(Apply(s, Deliver(m)), key, b) && Apply(s, Deliver(m)).tick == s.tick
  {
    MarkPointwise(s.log, m, true);
    OtherStepInTime(s, Apply(s, Deliver(m)), key, b);
  }

  /** The remaining steps leave log, attempts and clock alone. */
  lemma QuietStep(s: State, step: Step)
    requires Enabled(s, step) && !step.Send? && !step.Deliver? && !step.Foreign? && !step.Tick? && !step.Erase?
    ensures var t := Apply(s, step);
            && t.attempts == s.attempts && t.tick == s.tick && t.log == s.log
            && forall m :: m in t.pending ==> m in s.pending && t.pending[m] == s.pending[m]
  {
  }

  lemma StepInTime(s: State, step: Step, key: Key, b: Bound)
    requires Inv(s) && Enabled(s, step) && !step.Tick? && !step.Erase? && InTime(s, key, b)
    ensures InTime(Apply(s, step), key, b) && Apply(s, step).tick == s.tick
  {
    if step.Send? {
      PassInTime(s, step.outcomes, key, b);
    } else if step.Deliver? {
      DeliverInTime(s, step.m, key, b);
    } else if step.Foreign? {
      ForeignInTime(s, step.key, step.delivered, key, b);
    } else {
      QuietStep(s, step);
      OtherStepInTime(s, Apply(s, step), key, b);
    }
  }

  lemma PassInTime(s: State, outcomes: seq<Outcome>, key: Key, b: Bound)
    requires Inv(s) && InTime(s, key, b)
    ensures InTime(SendReports(s, outcomes), key, b) && SendReports(s, outcomes).tick == s.tick
  {
    ItemsKnown(s.routes, s.terminals, s.reports);
    if s.status == Running && s.routes != [] && s.profile {
      SendAllInTime(s, AllItems(s), outcomes, key, b);
      SendAllKeepsInv(s, AllItems(s), outcomes);
    } else {
      OtherStepInTime(s, SendReports(s, outcomes), key, b);
    }
  }

  lemma StepKeepsLast(s: State, step: Step)
    requires Inv(s) && Enabled(s, step) && PendingIsLast(s)
    ensures PendingIsLast(Apply(s, step))
  {
    var t := Apply(s, step);
    match step
    case Send(outcomes) => PassKeepsLast(s, outcomes);
    case Deliver(m) => MarkKeepsLast(s, t, m, true);
    case Erase(m) => MarkKeepsLast(s, t, m, false);
    case Foreign(_, _) =>
      forall m, i | m in t.pending && AwaitsRecord(t, m, i) ensures AwaitsRecord(s, m, i) {
      }
    case _ => UnsentKeepsLast(s, t);
  }

  lemma PassKeepsLast(s: State, outcomes: seq<Outcome>)
    requires Inv(s) && PendingIsLast(s)
    ensures PendingIsLast(SendReports(s, outcomes))
  {
    ItemsKnown(s.routes, s.terminals, s.reports);
    if s.status == Running && s.routes != [] && s.profile {
      SendAllKeepsLast(s, AllItems(s), outcomes);
    } else {
      UnsentKeepsLast(s, SendReports(s, outcomes));
    }
  }

  lemma UnsentKeepsLast(s: State, t: State)
    requires PendingIsLast(s) && t.log == s.log && t.attempts == s.attempts
    requires forall n :: n in t.pending ==> n in s.pending && t.pending[n] == s.pending[n]
    ensures PendingIsLast(t)
  {
    forall m, i | m in t.pending && AwaitsRecord(t, m, i)
      ensures AttemptOf(t, t.log[i].key).tick == t.log[i].created
    {
      assert AwaitsRecord(s, m, i);
    }
  }

  lemma {:induction false} RunKeepsLast(s: State, steps: seq<Step>)
    requires Inv(s) && PendingIsLast(s) && Valid(s, steps)
    ensures Inv(Run(s, steps)) && PendingIsLast(Run(s, steps))
    decreases |steps|
  {
    if steps != [] {
      StepKeepsLast(s, steps[0]);
      ApplyKeepsInv(s, steps[0]);
      RunKeepsLast(Apply(s, steps[0]), steps[1..]);
    }
  }

  lemma {:induction false} StepsInTime(s: State, steps: seq<Step>, key: Key, b: Bound)
    requires Inv(s) && PendingIsLast(s) && WithinTick(steps) && Valid(s, steps) && InTime(s, key, b)
    ensures var t := Run(s, steps); Inv(t) && PendingIsLast(t) && InTime(t, key, b) && t.tick == s.tick
    decreases |steps|
  {
    if steps != [] {
      StepInTime(s, steps[0], key, b);
      StepKeepsLast(s, steps[0]);
      ApplyKeepsInv(s, steps[0]);
      assert forall k :: 0 <= k < |steps| - 1 ==> steps[1..][k] == steps[k + 1];
      StepsInTime(Apply(s, steps[0]), steps[1..], key, b);
    }
  }

  /** A report that is not due was attempted less than a gap ago, or a rival sent in time is in flight. */
  lemma NotDueInTime(t: State, item: Item, b: Bound)
    requires Inv(t) && PendingIsLast(t) && Expiring(t, b.lifetime) && !Due(t, item) && b.gap == Max(item.route.interval, b.lifetime)
    requires InTime(t, KeyOf(item), b)
    ensures NotOverdue(Started(t), KeyOf(item), b)
  {
    var key := KeyOf(item);
    if !Delivered(t, key) && AttemptOf(t, key).count < MAX_ATTEMPTS {
      if InFlight(t, key) {
        var m :| m in t.pending && t.pending[m] == Awaited(key.recipient, key.intent);
        var i :| AwaitsRecord(t, m, i);
        AwaitedKey(t, m, i, key);
      }
      assert t.tick + 1 <= Deadline(t, key, AttemptOf(t, key).count, b);
      assert Delivered(Started(t), key) == Delivered(t, key);
    }
  }

  ghost predicate OnTrack(s: State, key: Key, b: Bound) {
    && Inv(s) && PendingIsLast(s) && KeepsUp(s, key, b) && RivalsInTime(s, key, b)
    && NotOverdue(Started(s), key, b)
  }

  lemma StartedInTime(s: State, key: Key, b: Bound)
    requires OnTrack(s, key, b)
    ensures Inv(Started(s)) && PendingIsLast(Started(s)) && InTime(Started(s), key, b)
  {
    var t := Started(s);
    UntouchedKeepsInv(s, t);
    assert Delivered(t, key) == Delivered(s, key);
    forall m, i | m in t.pending && AwaitsRecord(t, m, i) ensures AwaitsRecord(s, m, i) {
    }
  }

  lemma RoundOnTrack(s: State, r: Round, item: Item, b: Bound)
    requires RoundValid(s, r, b.lifetime, item) && OnTrack(s, KeyOf(item), b)
    requires item.route.interval > 0 && b.lifetime >= 1 && b.gap == Max(item.route.interval, b.lifetime)
    ensures var t := AfterRound(s, r, b.lifetime, item);
            && OnTrack(t, KeyOf(item), b.(failed := b.failed + Failed(t))) && t.tick == s.tick + 1
            && Expiring(t, b.lifetime)
  {
    var u := Run(Started(s), r.before);
    StartedInTime(s, KeyOf(item), b);
    StepsInTime(Started(s), r.before, KeyOf(item), b);
    PassOnTrack(u, r.outcomes, item, b);
  }

  lemma PassOnTrack(u: State, outcomes: seq<Outcome>, item: Item, b: Bound)
    requires Inv(u) && PendingIsLast(u) && InTime(u, KeyOf(item), b) && Expiring(u, b.lifetime) && item in AllItems(u)
    requires item.route.interval > 0 && b.lifetime >= 1 && b.gap == Max(item.route.interval, b.lifetime)
    ensures var t := SendReports(u, outcomes);
            && OnTrack(t, KeyOf(item), b.(failed := b.failed + Failed(t))) && t.tick == u.tick && Expiring(t, b.lifetime)
  {
    var t, key := SendReports(u, outcomes), KeyOf(item);
    PassInTime(u, outcomes, key, b);
    PassKeepsLast(u, outcomes);
    ApplyKeepsInv(u, Send(outcomes));
    PassKeepsExpiring(u, outcomes, b.lifetime);
    if t.status == Running {
      PassLeavesItemNotDue(u, outcomes, item);
      NotDueInTime(t, item, b);
      assert b.(failed := b.failed + 0) == b;
    } else {
      LaterBound(t, key, b);
    }
  }

  lemma LaterBound(t: State, key: Key, b: Bound)
    requires InTime(t, key, b)
    ensures KeepsUp(t, key, b.(failed := b.failed + 1)) && RivalsInTime(t, key, b.(failed := b.failed + 1))
    ensures NotOverdue(Started(t), key, b.(failed := b.failed + 1))
  {
    assert Delivered(Started(t), key) == Delivered(t, key);
  }

  lemma PassLeavesItemNotDue(u: State, outcomes: seq<Outcome>, item: Item)
    requires Inv(u) && item in AllItems(u) && item.route.interval > 0 && SendReports(u, outcomes).status == Running
    ensures !Due(SendReports(u, outcomes), item)
  {
    ItemsKnown(u.routes, u.terminals, u.reports);
    SendAllClears(u, AllItems(u), outcomes, item);
  }

  lemma SendOneKeepsExpiring(s: State, item: Item, outcome: Outcome, lifetime: nat)
    requires Numbered(s) && InFlightOnce(s) && item.route.role in s.terminals && Expiring(s, lifetime) && lifetime >= 1
    ensures Expiring(SendOne(s, item, outcome), lifetime)
  {
  }

  lemma {:induction false} SendAllKeepsExpiring(s: State, items: seq<Item>, outcomes: seq<Outcome>, lifetime: nat)
    requires Inv(s) && Known(items, s.terminals) && Expiring(s, lifetime) && lifetime >= 1
    requires forall item :: item in items ==> item in AllItems(s)
    ensures Expiring(SendAll(s, items, outcomes), lifetime)
    decreases |items|
  {
    if items != [] && s.status == Running {
      FirstItem(s, items, outcomes);
      SendOneKeepsExpiring(s, items[0], Head(outcomes), lifetime);
      SendOneKeepsInv(s, items[0], Head(outcomes));
      SendAllKeepsExpiring(SendOne(s, items[0], Head(outcomes)), items[1..],
                           if Due(s, items[0]) then Tail(outcomes) else outcomes, lifetime);
    }
  }

  lemma PassKeepsExpiring(s: State, outcomes: seq<Outcome>, lifetime: nat)
    requires Inv(s) && Expiring(s, lifetime) && lifetime >= 1
    ensures Expiring(SendReports(s, outcomes), lifetime)
  {
    ItemsKnown(s.routes, s.terminals, s.reports);
    if s.status == Running && s.routes != [] && s.profile {
      SendAllKeepsExpiring(s, AllItems(s), outcomes, lifetime);
    }
  }

  lemma {:induction false} RoundsOnTrack(s: State, rounds: seq<Round>, item: Item, b: Bound)
    requires RoundsValid(s, rounds, b.lifetime, item) && OnTrack(s, KeyOf(item), b)
    requires item.route.interval > 0 && b.lifetime >= 1 && b.gap == Max(item.route.interval, b.lifetime)
    ensures var t := AfterRounds(s, rounds, b.lifetime, item);
            && t.tick == s.tick + |rounds| && (rounds != [] ==> Expiring(t, b.lifetime))
            && OnTrack(t, KeyOf(item), b.(failed := b.failed + FailedTicks(s, rounds, b.lifetime, item)))
    decreases |rounds|
  {
    if rounds == [] {
      assert b.(failed := b.failed + 0) == b;
    } else {
      var t := AfterRound(s, rounds[0], b.lifetime, item);
      var next := b.(failed := b.failed + Failed(t));
      RoundOnTrack(s, rounds[0], item, b);
      RoundsOnTrack(t, rounds[1..], item, next);
      assert b.(failed := b.failed + FailedTicks(s, rounds, b.lifetime, item))
          == next.(failed := next.failed + FailedTicks(t, rounds[1..], b.lifetime, item));
    }
  }

  /** The report is delivered, or it has had its four attempts and none of them is in flight. */
  ghost predicate Done(s: State, key: Key) {
    || Delivered(s, key)
    || (AttemptOf(s, key).count >= MAX_ATTEMPTS
        && forall m, i :: m in s.pending && AwaitsRecord(s, m, i) ==> s.log[i].key != key)
  }

  /** The settlement bound. In any run, start where a report has just been attempted for the first time and
      let the radio clock run for at least 3 * max(interval, lifetime) + lifetime ticks, one more for every
      failed tick and a lifetime more for every rival message, in any way the steps allow, with the report
      still to be carried at each pass: it is then delivered, or its attempts are over. Without rivals it is
      settled. */
  lemma SettlesInTime(start: State, earlier: seq<Step>, rounds: seq<Round>, lifetime: nat, item: Item)
    requires Fresh(start) && Valid(start, earlier) && lifetime >= 1 && item.route.interval > 0
    requires RoundsValid(Run(start, earlier), rounds, lifetime, item)
    requires AttemptOf(Run(start, earlier), KeyOf(item)) == Attempt(Run(start, earlier).tick, 1)
    requires var s := Run(start, earlier); var t := AfterRounds(s, rounds, lifetime, item);
             |rounds| >= 3 * Max(item.route.interval, lifetime) + lifetime + FailedTicks(s, rounds, lifetime, item)
                         + Times(Rivals(t.log, KeyOf(item)), lifetime)
    ensures var t := AfterRounds(Run(start, earlier), rounds, lifetime, item);
            Done(t, KeyOf(item)) && (Rivals(t.log, KeyOf(item)) == 0 ==> Covered(t, KeyOf(item)))
  {
    var s, key := Run(start, earlier), KeyOf(item);
    FreshInv(start);
    RunKeepsLast(start, earlier);
    var b := Bound(s.tick, Max(item.route.interval, lifetime), lifetime, 0);
    FirstAttemptOnTrack(s, key, b);
    RoundsOnTrack(s, rounds, item, b);
    LateIsDone(AfterRounds(s, rounds, lifetime, item), key, b.(failed := FailedTicks(s, rounds, lifetime, item)));
  }

  lemma FirstAttemptOnTrack(s: State, key: Key, b: Bound)
    requires Inv(s) && PendingIsLast(s) && AttemptOf(s, key) == Attempt(s.tick, 1) && b.first == s.tick
    requires b.lifetime >= 1 && b.gap >= b.lifetime
    ensures OnTrack(s, key, b)
  {
    assert Times(1, b.gap) == b.gap + Times(0, b.gap);
    forall m, i | m in s.pending && AwaitsRecord(s, m, i) && IsRival(s.log[i], key)
      ensures s.log[i].created + b.lifetime <= Deadline(s, key, 1, b)
    {
      assert KeyLogged(s, s.log[i].key);
    }
  }

  lemma TimesThree(gap: nat)
    ensures Times(1, gap) == gap && Times(2, gap) == 2 * gap && Times(3, gap) == 3 * gap
  {
    assert Times(2, gap) == gap + Times(1, gap);
    assert Times(3, gap) == gap + Times(2, gap);
  }

  lemma LateIsDone(t: State, key: Key, b: Bound)
    requires OnTrack(t, key, b) && Expiring(t, b.lifetime)
    requires t.tick >= b.first + 3 * b.gap + b.lifetime + b.failed + Times(Rivals(t.log, key), b.lifetime)
    ensures Done(t, key) && (Rivals(t.log, key) == 0 ==> Covered(t, key))
  {
    if !Delivered(t, key) {
      TimesThree(b.gap);
      assert Delivered(Started(t), key) == Delivered(t, key);
      forall m, i | m in t.pending && AwaitsRecord(t, m, i) ensures t.log[i].key != key {
      }
      forall m | m in t.pending && Rivals(t.log, key) == 0
        ensures t.pending[m] != Awaited(key.recipient, key.intent)
      {
        var i :| AwaitsRecord(t, m, i);
        if IsRival(t.log[i], key) {
          RivalCounted(t.log, key, i);
        }
      }
    }
  }
}
