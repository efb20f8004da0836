/** What a valid import leaves for every record, atomicity of the commit, and importing an order twice. */
module AirspaceReimport {
  import opened Ordered
  import opened AirspaceImport
  import opened AirspaceSafety

  /** The parser reports a repeated identifier, and objects to a purpose the simulation does not have
      (crates/sim-comms/src/aco.rs:349-355, 574-580). */
  ghost predicate Parsed(order: Order) {
    && (!order.issues ==> Distinct(order.records))
    && (forall i :: 0 <= i < |order.records| ==> Readable(order.records[i]))
  }

  ghost predicate Distinct(records: seq<Record>) {
    forall i, j :: 0 <= i < j < |records| ==> records[i].external != records[j].external
  }

  ghost predicate Readable(r: Record) {
    r.kindKnown || r.issues || r.excluded || r.action == Cancel
  }

  /** The record's airspace comes from this very message. */
  ghost predicate Installed(airspaces: seq<Airspace>, order: Order, external: nat) {
    exists x :: x in airspaces && Matches(x, order.id, external) && x.source.value.hash == order.hash
  }

  ghost predicate Absent(airspaces: seq<Airspace>, order: nat, external: nat) {
    forall x :: x in airspaces ==> !Matches(x, order, external)
  }

  ghost predicate Same(a: seq<Airspace>, b: seq<Airspace>, order: nat, external: nat) {
    forall x :: Matches(x, order, external) ==> (x in a <==> x in b)
  }

  ghost predicate Written(airspaces: seq<Airspace>, order: Order, r: Record) {
    exists x :: x in airspaces && Matches(x, order.id, r.external) && x.source.value.hash == order.hash
      && r.controller == Some(x.controller) && r.payload == Some(x.payload)
  }

  /** What became of a record no objection remains to. */
  ghost predicate Outcome(before: seq<Airspace>, after: seq<Airspace>, order: Order, r: Record) {
    && (!r.excluded ==> !r.issues)
    && (if r.excluded || Installed(before, order, r.external) then Same(before, after, order.id, r.external)
        else if r.action == Cancel then !Absent(before, order.id, r.external) && Absent(after, order.id, r.external)
        else Written(after, order, r) && (r.action == Change ==> !Absent(before, order.id, r.external)))
  }

  // ---- One record ---------------------------------------------------------------------------

  lemma EditIsLocal(p: Progress, q: Progress, order: nat, external: nat, missions: seq<set<nat>>, e: nat)
    requires Edited(p, q, order, external, missions) && e != external
    requires forall i :: 0 <= i < |q.airspaces| && q.airspaces[i] !in p.airspaces ==> Matches(q.airspaces[i], order, external)
    ensures Same(p.airspaces, q.airspaces, order, e)
  {
    var at := Position(p.airspaces, order, external);
    forall x | Matches(x, order, e) && x in p.airspaces ensures x in q.airspaces {
      var i :| 0 <= i < |p.airspaces| && p.airspaces[i] == x;
      if |q.airspaces| < |p.airspaces| {
        var k := if i < at.value then i else i - 1;
        assert q.airspaces[k] == x;
      } else {
        assert q.airspaces[i] == x;
      }
    }
  }

  lemma RecordIsLocal(p: Progress, order: Order, missions: seq<set<nat>>, r: Record, e: nat)
    requires e != r.external
    ensures Same(p.airspaces, ImportRecord(p, order, missions, r).airspaces, order.id, e)
  {
    RecordEdits(p, order, missions, r);
    EditIsLocal(p, ImportRecord(p, order, missions, r), order.id, r.external, missions, e);
  }

  lemma PositionFinds(airspaces: seq<Airspace>, order: Order, external: nat)
    requires OnePerRecord(airspaces)
    ensures var at := Position(airspaces, order.id, external);
            && (at.None? <==> Absent(airspaces, order.id, external))
            && (Installed(airspaces, order, external) <==> at.Some? && airspaces[at.value].source.value.hash == order.hash)
  {
    var at := Position(airspaces, order.id, external);
    if at.Some? {
      forall x | x in airspaces && Matches(x, order.id, external) ensures x == airspaces[at.value] {
        var i :| 0 <= i < |airspaces| && airspaces[i] == x;
      }
      assert airspaces[at.value] in airspaces;
    }
  }

  lemma CancelSettles(p: Progress, order: Order, missions: seq<set<nat>>, r: Record)
    requires OnePerRecord(p.airspaces) && !r.excluded && r.action == Cancel && !Installed(p.airspaces, order, r.external)
    requires ImportRecord(p, order, missions, r).blocked == p.blocked
    ensures Outcome(p.airspaces, ImportRecord(p, order, missions, r).airspaces, order, r)
  {
    PositionFinds(p.airspaces, order, r.external);
    var at := Position(p.airspaces, order.id, r.external).value;
    var after := p.airspaces[..at] + p.airspaces[at + 1..];
    forall x | x in after ensures !Matches(x, order.id, r.external) {
      var i :| 0 <= i < |after| && after[i] == x;
      assert x == p.airspaces[if i < at then i else i + 1];
    }
  }

  lemma RecordSettles(p: Progress, order: Order, missions: seq<set<nat>>, r: Record)
    requires OnePerRecord(p.airspaces) && Readable(r)
    requires var q := ImportRecord(p, order, missions, r); q.blocked == p.blocked && !q.failed
    ensures Outcome(p.airspaces, ImportRecord(p, order, missions, r).airspaces, order, r)
  {
    PositionFinds(p.airspaces, order, r.external);
    var q := ImportRecord(p, order, missions, r);
    if r.excluded || Installed(p.airspaces, order, r.external) {
      assert q.airspaces == p.airspaces;
    } else if r.action == Cancel {
      CancelSettles(p, order, missions, r);
    } else {
      var at := Position(p.airspaces, order.id, r.external);
      var k := if at.Some? then at.value else |p.airspaces|;
      assert q.airspaces[k] in q.airspaces && Matches(q.airspaces[k], order.id, r.external);
    }
  }

  lemma OutcomeMoves(a: seq<Airspace>, b: seq<Airspace>, c: seq<Airspace>, d: seq<Airspace>, order: Order, r: Record)
    requires Same(a, b, order.id, r.external) && Outcome(b, c, order, r) && Same(c, d, order.id, r.external)
    ensures Outcome(a, d, order, r)
  {
    assert Installed(a, order, r.external) == Installed(b, order, r.external);
    assert Absent(a, order.id, r.external) == Absent(b, order.id, r.external);
  }

  // ---- All records --------------------------------------------------------------------------

  lemma {:induction false} RecordsAreLocal(p: Progress, order: Order, missions: seq<set<nat>>, records: seq<Record>, e: nat)
    requires forall i :: 0 <= i < |records| ==> records[i].external != e
    ensures Same(p.airspaces, ImportRecords(p, order, missions, records).airspaces, order.id, e)
    decreases |records|
  {
    if records != [] && !p.failed {
      RecordIsLocal(p, order, missions, records[0], e);
      RecordsAreLocal(ImportRecord(p, order, missions, records[0]), order, missions, records[1..], e);
    }
  }

  lemma {:induction false} RecordsSettle(p: Progress, order: Order, missions: seq<set<nat>>, records: seq<Record>, k: nat)
    requires DistinctIds(p.airspaces, p.nextId) && OnePerRecord(p.airspaces) && Distinct(records) && k < |records|
    requires forall i :: 0 <= i < |records| ==> Readable(records[i])
    requires var q := ImportRecords(p, order, missions, records); q.blocked == p.blocked && !p.failed && !q.failed
    ensures Outcome(p.airspaces, ImportRecords(p, order, missions, records).airspaces, order, records[k])
    decreases |records|
  {
    var t := ImportRecord(p, order, missions, records[0]);
    var q := ImportRecords(t, order, missions, records[1..]);
    HeadIsClear(p, order, missions, records);
    if k == 0 {
      RecordSettles(p, order, missions, records[0]);
      RecordsAreLocal(t, order, missions, records[1..], records[0].external);
      OutcomeMoves(p.airspaces, p.airspaces, t.airspaces, q.airspaces, order, records[0]);
    } else {
      RecordIsLocal(p, order, missions, records[0], records[k].external);
      RecordsSettle(t, order, missions, records[1..], k - 1);
      OutcomeMoves(p.airspaces, t.airspaces, q.airspaces, q.airspaces, order, records[k]);
    }
  }

  lemma HeadIsClear(p: Progress, order: Order, missions: seq<set<nat>>, records: seq<Record>)
    requires DistinctIds(p.airspaces, p.nextId) && OnePerRecord(p.airspaces) && records != []
    requires var q := ImportRecords(p, order, missions, records); q.blocked == p.blocked && !p.failed && !q.failed
    ensures var t := ImportRecord(p, order, missions, records[0]);
            && ImportRecords(p, order, missions, records) == ImportRecords(t, order, missions, records[1..])
            && DistinctIds(t.airspaces, t.nextId) && OnePerRecord(t.airspaces) && t.blocked == p.blocked && !t.failed
  {
    var t := ImportRecord(p, order, missions, records[0]);
    RecordKeeps(p, order, missions, records[0]);
    RecordsKeep(t, order, missions, records[1..]);
  }

  // ---- The commit ---------------------------------------------------------------------------

  ghost predicate Sound(s: State) {
    forall role :: Draft(s, role).Some? ==>
      DistinctIds(Draft(s, role).value.airspaces, s.nextId) && OnePerRecord(Draft(s, role).value.airspaces)
  }

  ghost predicate Installs(was: Plan, plan: Plan, nextId: nat, check: Check) {
    && plan.revision == was.revision + 1 && plan.published == None && plan.missions == was.missions
    && check(plan.airspaces, plan.missions)
    && KeepsReferenced(was.airspaces, plan.airspaces, was.missions)
    && KeepsIdentity(was.airspaces, plan.airspaces, nextId)
  }

  /** An import is refused without a trace, accepted without a change, or replaces the one draft by a sound
      plan exactly one revision on, no longer published. */
  lemma ApplyIsAtomic(s: State, role: nat, expected: nat, order: Order, check: Check)
    requires Sound(s)
    ensures var (t, response) := Apply(s, role, expected, order, check);
            && Sound(t)
            && (response.Refused? ==> t == s)
            && (response.Applied? ==> Draft(s, role).Some? && Draft(s, role).value.revision == expected)
            && (forall other :: other != role ==> Draft(t, other) == Draft(s, other))
            && (t != s ==> role in t.drafts && Draft(s, role).Some?
                           && Installs(Draft(s, role).value, t.drafts[role], s.nextId, check))
  {
    var (t, response) := Apply(s, role, expected, order, check);
    if t != s {
      var was := Draft(s, role).value;
      ImportKeepsPlan(was.airspaces, s.nextId, order, was.missions, {});
      forall other | Draft(t, other).Some?
        ensures DistinctIds(Draft(t, other).value.airspaces, t.nextId) && OnePerRecord(Draft(t, other).value.airspaces)
      {
        if other != role {
          assert Draft(t, other) == Draft(s, other);
        }
      }
    }
  }

  /** An accepted import brought about every record's outcome. */
  lemma AcceptedSettlesRecords(s: State, role: nat, expected: nat, order: Order, check: Check, k: nat)
    requires Sound(s) && Parsed(order) && k < |order.records|
    requires Apply(s, role, expected, order, check).1.Applied?
    ensures var t := Apply(s, role, expected, order, check).0;
            && Draft(s, role).Some? && Draft(t, role).Some?
            && Outcome(Draft(s, role).value.airspaces, Draft(t, role).value.airspaces, order, order.records[k])
  {
    var plan := Draft(s, role).value;
    var p := Progress(plan.airspaces, [], [], s.nextId, false);
    RecordsSettle(p, order, plan.missions, order.records, k);
    var q := ImportRecords(p, order, plan.missions, order.records);
    if !Alters(q.changes) {
      UnalteredIsSame(p, order, plan.missions, order.records);
    }
  }

  /** Without a change noted, the airspaces are those of before. */
  lemma {:induction false} UnalteredIsSame(p: Progress, order: Order, missions: seq<set<nat>>, records: seq<Record>)
    requires DistinctIds(p.airspaces, p.nextId) && OnePerRecord(p.airspaces)
    requires !Alters(ImportRecords(p, order, missions, records).changes)
    ensures ImportRecords(p, order, missions, records).airspaces == p.airspaces
    decreases |records|
  {
    if records != [] && !p.failed {
      var t := ImportRecord(p, order, missions, records[0]);
      RecordEdits(p, order, missions, records[0]);
      RecordKeeps(p, order, missions, records[0]);
      RecordsKeep(t, order, missions, records[1..]);
      UnalteredIsSame(t, order, missions, records[1..]);
      if t.airspaces != p.airspaces {
        TouchedStays(t.changes, ImportRecords(t, order, missions, records[1..]).changes, records[0].external);
        assert false;
      }
    }
  }

  // ---- The same order again -----------------------------------------------------------------

  ghost predicate Settled(airspaces: seq<Airspace>, order: Order, r: Record) {
    r.excluded || (!r.issues && (Installed(airspaces, order, r.external) || Gone(airspaces, order, r)))
  }

  ghost predicate Gone(airspaces: seq<Airspace>, order: Order, r: Record) {
    !r.excluded && r.action == Cancel && Absent(airspaces, order.id, r.external)
  }

  lemma {:induction false} ReimportChangesNothing(p: Progress, order: Order, missions: seq<set<nat>>, records: seq<Record>)
    requires OnePerRecord(p.airspaces) && !p.failed && !Alters(p.changes)
    requires forall i :: 0 <= i < |records| ==> Settled(p.airspaces, order, records[i])
    ensures var q := ImportRecords(p, order, missions, records);
            && q.airspaces == p.airspaces && q.nextId == p.nextId && !q.failed && !Alters(q.changes)
            && |p.blocked| <= |q.blocked|
            && (q.blocked == p.blocked <==> forall i :: 0 <= i < |records| ==> !Gone(p.airspaces, order, records[i]))
    decreases |records|
  {
    if records != [] {
      var r := records[0];
      var t := ImportRecord(p, order, missions, r);
      PositionFinds(p.airspaces, order, r.external);
      assert Settled(p.airspaces, order, r);
      assert t.airspaces == p.airspaces && t.nextId == p.nextId && !t.failed;
      assert (t.blocked == p.blocked) == !Gone(p.airspaces, order, r);
      assert |t.blocked| == |p.blocked| <==> t.blocked == p.blocked;
      forall i | 0 <= i < |records| - 1 ensures Settled(t.airspaces, order, records[1..][i]) {
        assert records[1..][i] == records[i + 1];
      }
      ReimportChangesNothing(t, order, missions, records[1..]);
      assert forall i :: 0 <= i < |records| ==> records[i] == if i == 0 then r else records[1..][i - 1];
    }
  }

  /** The order cancels an airspace that is not of this very message. */
  ghost predicate Cancels(airspaces: seq<Airspace>, order: Order) {
    exists i :: 0 <= i < |order.records| && !order.records[i].excluded && order.records[i].action == Cancel
      && !Installed(airspaces, order, order.records[i].external)
  }

  /** Importing an accepted order again never changes anything. It is accepted again exactly when the
      order cancelled nothing; the target of a cancellation is gone the second time. */
  lemma ReimportIsIdempotent(s: State, role: nat, expected: nat, order: Order, check: Check)
    requires Sound(s) && Parsed(order) && Apply(s, role, expected, order, check).1.Applied?
    ensures var t := Apply(s, role, expected, order, check).0;
            && Draft(s, role).Some? && Draft(t, role).Some?
            && Apply(t, role, Draft(t, role).value.revision, order, check)
            == (t, if Cancels(Draft(s, role).value.airspaces, order) then Refused(Unresolved) else Applied)
  {
    var t := Apply(s, role, expected, order, check).0;
    ApplyIsAtomic(s, role, expected, order, check);
    var was, plan := Draft(s, role).value, Draft(t, role).value;
    forall k: nat | k < |order.records|
      ensures Settled(plan.airspaces, order, order.records[k])
      ensures Gone(plan.airspaces, order, order.records[k]) <==>
              (!order.records[k].excluded && order.records[k].action == Cancel
               && !Installed(was.airspaces, order, order.records[k].external))
    {
      AcceptedSettlesRecords(s, role, expected, order, check, k);
      OutcomeSettles(was.airspaces, plan.airspaces, order, order.records[k]);
    }
    ReimportChangesNothing(Progress(plan.airspaces, [], [], t.nextId, false), order, plan.missions, order.records);
    AcceptedIsSound(s, role, expected, order, check);
    var again := Prepare(t, role, plan.revision, order, check);
    assert again.Prepared? && !Alters(again.changes);
    assert again.blocked == [] <==> !Cancels(was.airspaces, order);
  }

  lemma OutcomeSettles(before: seq<Airspace>, after: seq<Airspace>, order: Order, r: Record)
    requires Outcome(before, after, order, r)
    ensures Settled(after, order, r)
    ensures Gone(after, order, r) <==> !r.excluded && r.action == Cancel && !Installed(before, order, r.external)
  {
    if r.excluded || Installed(before, order, r.external) {
      assert Installed(before, order, r.external) == Installed(after, order, r.external);
    } else if r.action != Cancel {
      assert Installed(after, order, r.external);
    }
  }

  lemma AcceptedIsSound(s: State, role: nat, expected: nat, order: Order, check: Check)
    requires Sound(s) && Parsed(order) && Apply(s, role, expected, order, check).1.Applied?
    ensures var t := Apply(s, role, expected, order, check).0;
            role in t.participants && Draft(t, role).Some? && !order.issues
            && check(Draft(t, role).value.airspaces, Draft(t, role).value.missions)
  {
    var plan := Draft(s, role).value;
    var p := Progress(plan.airspaces, [], [], s.nextId, false);
    if !Alters(ImportRecords(p, order, plan.missions, order.records).changes) {
      UnalteredIsSame(p, order, plan.missions, order.records);
    }
  }
}
