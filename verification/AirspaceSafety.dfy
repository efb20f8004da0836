/** What an airspace import keeps and establishes, and what importing the same order again does. */
module AirspaceSafety {
  import opened Ordered
  import opened AirspaceImport

  // ---- Identities ---------------------------------------------------------------------------

  /** Identifiers are distinct and all handed out before nextId. */
  ghost predicate DistinctIds(airspaces: seq<Airspace>, nextId: nat) {
    && (forall i :: 0 <= i < |airspaces| ==> airspaces[i].id < nextId)
    && (forall i, j :: 0 <= i < j < |airspaces| ==> airspaces[i].id != airspaces[j].id)
  }

  /** At most one airspace for each record of each order. */
  ghost predicate OnePerRecord(airspaces: seq<Airspace>) {
    forall i, j :: 0 <= i < j < |airspaces| && airspaces[i].source.Some? ==>
      !Matches(airspaces[j], airspaces[i].source.value.order, airspaces[i].source.value.external)
  }

  ghost predicate SameIdentity(x: Airspace, y: Airspace) {
    && x.id == y.id && x.procedure == y.procedure
    && (x == y || (x.source.Some? && y.source.Some? && x.source.value.order == y.source.value.order
                   && x.source.value.external == y.source.value.external))
  }

  /** An airspace that keeps its identifier keeps its control method and where it came from. */
  ghost predicate KeepsIdentity(before: seq<Airspace>, after: seq<Airspace>, nextId: nat) {
    forall y :: y in after && y.id < nextId ==> exists x :: x in before && SameIdentity(x, y)
  }

  ghost predicate HasId(airspaces: seq<Airspace>, id: nat) {
    exists i :: 0 <= i < |airspaces| && airspaces[i].id == id
  }

  /** Every airspace a mission needs is still there. */
  ghost predicate KeepsReferenced(before: seq<Airspace>, after: seq<Airspace>, missions: seq<set<nat>>) {
    forall id :: HasId(before, id) && Referenced(missions, id) ==> HasId(after, id)
  }

  /** The airspaces that no listed record concerns, in order. */
  ghost function Others(airspaces: seq<Airspace>, order: nat, externals: set<nat>): seq<Airspace> {
    if airspaces == [] then []
    else
      var a := airspaces[0];
      var rest := Others(airspaces[1..], order, externals);
      if a.source.Some? && a.source.value.order == order && a.source.value.external in externals then rest else [a] + rest
  }

  lemma {:induction false} OthersSplit(a: seq<Airspace>, b: seq<Airspace>, order: nat, externals: set<nat>)
    ensures Others(a + b, order, externals) == Others(a, order, externals) + Others(b, order, externals)
  {
    if a == [] {
      assert a + b == b;
    } else {
      assert (a + b)[0] == a[0] && (a + b)[1..] == a[1..] + b;
      OthersSplit(a[1..], b, order, externals);
    }
  }

  /** The records that changed the draft. */
  ghost predicate Touched(changes: seq<Note>, external: nat) {
    exists i :: 0 <= i < |changes| && changes[i].external == external
      && changes[i].kind != Unchanged && changes[i].kind != Excluded
  }

  ghost predicate Removed(a: seq<Airspace>, b: seq<Airspace>, i: nat, missions: seq<set<nat>>) {
    i < |a| && b == a[..i] + a[i + 1..] && !Referenced(missions, a[i].id)
  }

  ghost predicate Replaced(a: seq<Airspace>, b: seq<Airspace>, i: nat) {
    i < |a| && |b| == |a| && b == a[i := b[i]] && SameIdentity(a[i], b[i]) && b[i].source.Some?
  }

  ghost predicate Appended(a: seq<Airspace>, b: seq<Airspace>, order: nat, external: nat, id: nat) {
    && |b| == |a| + 1 && b == a + [b[|a|]] && b[|a|].id == id && Matches(b[|a|], order, external)
    && Position(a, order, external).None?
  }

  /** What one record does to the airspaces: nothing, or one edit at the airspace it matches, noted as a change. */
  ghost predicate Edited(p: Progress, q: Progress, order: nat, external: nat, missions: seq<set<nat>>) {
    var at := Position(p.airspaces, order, external);
    && p.changes <= q.changes && p.blocked <= q.blocked
    && (q.airspaces != p.airspaces ==> Touched(q.changes, external))
    && (|| (q.airspaces == p.airspaces && q.nextId == p.nextId)
        || (at.Some? && q.nextId == p.nextId && Removed(p.airspaces, q.airspaces, at.value, missions))
        || (at.Some? && q.nextId == p.nextId && Replaced(p.airspaces, q.airspaces, at.value))
        || (q.nextId == p.nextId + 1 && Appended(p.airspaces, q.airspaces, order, external, p.nextId)))
  }

  lemma RecordEdits(p: Progress, order: Order, missions: seq<set<nat>>, r: Record)
    ensures Edited(p, ImportRecord(p, order, missions, r), order.id, r.external, missions)
  {
    var q, at := ImportRecord(p, order, missions, r), Position(p.airspaces, order.id, r.external);
    if q.airspaces != p.airspaces {
      assert q.changes[|p.changes|].external == r.external;
      if r.action == Cancel {
        assert Removed(p.airspaces, q.airspaces, at.value, missions);
      } else if at.Some? {
        assert Replaced(p.airspaces, q.airspaces, at.value);
      } else {
        assert Appended(p.airspaces, q.airspaces, order.id, r.external, p.nextId);
      }
    }
  }

  lemma EditKeepsIds(p: Progress, q: Progress, order: nat, external: nat, missions: seq<set<nat>>)
    requires Edited(p, q, order, external, missions) && DistinctIds(p.airspaces, p.nextId)
    ensures DistinctIds(q.airspaces, q.nextId)
  {
    var at := Position(p.airspaces, order, external);
    if at.Some? && Removed(p.airspaces, q.airspaces, at.value, missions) {
      RemovalKeepsIds(p.airspaces, q.airspaces, at.value, p.nextId);
    } else if at.Some? && Replaced(p.airspaces, q.airspaces, at.value) {
      assert forall i :: 0 <= i < |q.airspaces| ==> q.airspaces[i].id == p.airspaces[i].id;
    }
  }

  lemma RemovalKeepsIds(a: seq<Airspace>, b: seq<Airspace>, k: nat, nextId: nat)
    requires k < |a| && b == a[..k] + a[k + 1..] && DistinctIds(a, nextId)
    ensures DistinctIds(b, nextId)
  {
    forall i: nat | i < |b| ensures b[i].id < nextId && forall j :: i < j < |b| ==> b[i].id != b[j].id {
      assert b[i] == a[if i < k then i else i + 1];
      forall j: nat | i < j < |b| ensures b[i].id != b[j].id {
        assert b[j] == a[if j < k then j else j + 1];
      }
    }
  }

  lemma EditKeepsReferenced(p: Progress, q: Progress, order: nat, external: nat, missions: seq<set<nat>>)
    requires Edited(p, q, order, external, missions)
    ensures KeepsReferenced(p.airspaces, q.airspaces, missions)
  {
    var at := Position(p.airspaces, order, external);
    forall id | HasId(p.airspaces, id) && Referenced(missions, id) ensures HasId(q.airspaces, id) {
      var i :| 0 <= i < |p.airspaces| && p.airspaces[i].id == id;
      if |q.airspaces| < |p.airspaces| {
        var k := if i < at.value then i else i - 1;
        assert q.airspaces[k].id == id;
      } else {
        assert q.airspaces[i].id == id;
      }
    }
  }

  lemma EditKeepsOne(p: Progress, q: Progress, order: nat, external: nat, missions: seq<set<nat>>)
    requires Edited(p, q, order, external, missions) && OnePerRecord(p.airspaces)
    ensures OnePerRecord(q.airspaces)
  {
  }

  lemma EditKeepsIdentity(p: Progress, q: Progress, order: nat, external: nat, missions: seq<set<nat>>)
    requires Edited(p, q, order, external, missions)
    ensures KeepsIdentity(p.airspaces, q.airspaces, p.nextId)
  {
    var at := Position(p.airspaces, order, external);
    forall y | y in q.airspaces && y.id < p.nextId ensures exists x :: x in p.airspaces && SameIdentity(x, y) {
      var i :| 0 <= i < |q.airspaces| && q.airspaces[i] == y;
      if y in p.airspaces {
        assert SameIdentity(y, y);
      } else {
        assert at.Some? && i == at.value;
        assert p.airspaces[i] in p.airspaces && SameIdentity(p.airspaces[i], y);
      }
    }
  }

  lemma IdentityChains(a: seq<Airspace>, b: seq<Airspace>, c: seq<Airspace>, n: nat, m: nat)
    requires n <= m && KeepsIdentity(a, b, n) && KeepsIdentity(b, c, m)
    ensures KeepsIdentity(a, c, n)
  {
    forall z | z in c && z.id < n ensures exists x :: x in a && SameIdentity(x, z) {
      var y :| y in b && SameIdentity(y, z);
      var x :| x in a && SameIdentity(x, y);
      assert SameIdentity(x, z);
    }
  }

  lemma OneReplaced(a: seq<Airspace>, i: nat, volume: Airspace, order: nat, externals: set<nat>)
    requires i < |a|
    requires a[i].source.Some? && a[i].source.value.order == order && a[i].source.value.external in externals
    requires volume.source.Some? && volume.source.value.order == order && volume.source.value.external in externals
    ensures Others(a[i := volume], order, externals) == Others(a, order, externals)
    ensures Others(a[..i] + a[i + 1..], order, externals) == Others(a, order, externals)
  {
    assert a == a[..i] + ([a[i]] + a[i + 1..]);
    assert a[i := volume] == a[..i] + ([volume] + a[i + 1..]);
    OthersSplit(a[..i], [a[i]] + a[i + 1..], order, externals);
    OthersSplit([a[i]], a[i + 1..], order, externals);
    OthersSplit(a[..i], [volume] + a[i + 1..], order, externals);
    OthersSplit([volume], a[i + 1..], order, externals);
    OthersSplit(a[..i], a[i + 1..], order, externals);
  }

  lemma EditLeavesOthers(p: Progress, q: Progress, order: nat, external: nat, missions: seq<set<nat>>, externals: set<nat>)
    requires Edited(p, q, order, external, missions) && forall e :: Touched(q.changes, e) ==> e in externals
    ensures Others(q.airspaces, order, externals) == Others(p.airspaces, order, externals)
  {
    var at := Position(p.airspaces, order, external);
    if q.airspaces != p.airspaces {
      if at.Some? {
        var volume := if |q.airspaces| == |p.airspaces| then q.airspaces[at.value] else p.airspaces[at.value];
        OneReplaced(p.airspaces, at.value, volume, order, externals);
      } else {
        OthersSplit(p.airspaces, q.airspaces[|p.airspaces|..], order, externals);
        assert q.airspaces == p.airspaces + q.airspaces[|p.airspaces|..];
      }
    }
  }

  ghost predicate Kept(p: Progress, q: Progress, missions: seq<set<nat>>) {
    && p.changes <= q.changes && p.blocked <= q.blocked && p.nextId <= q.nextId
    && DistinctIds(q.airspaces, q.nextId) && OnePerRecord(q.airspaces)
    && KeepsReferenced(p.airspaces, q.airspaces, missions) && KeepsIdentity(p.airspaces, q.airspaces, p.nextId)
  }

  lemma RecordKeeps(p: Progress, order: Order, missions: seq<set<nat>>, r: Record)
    requires DistinctIds(p.airspaces, p.nextId) && OnePerRecord(p.airspaces)
    ensures Kept(p, ImportRecord(p, order, missions, r), missions)
  {
    var q := ImportRecord(p, order, missions, r);
    RecordEdits(p, order, missions, r);
    EditKeepsIds(p, q, order.id, r.external, missions);
    EditKeepsReferenced(p, q, order.id, r.external, missions);
    EditKeepsOne(p, q, order.id, r.external, missions);
    EditKeepsIdentity(p, q, order.id, r.external, missions);
  }

  lemma {:induction false} RecordsKeep(p: Progress, order: Order, missions: seq<set<nat>>, records: seq<Record>)
    requires DistinctIds(p.airspaces, p.nextId) && OnePerRecord(p.airspaces)
    ensures Kept(p, ImportRecords(p, order, missions, records), missions)
    decreases |records|
  {
    if records == [] || p.failed {
      assert forall y :: y in p.airspaces ==> SameIdentity(y, y);
    } else {
      var t := ImportRecord(p, order, missions, records[0]);
      var q := ImportRecords(t, order, missions, records[1..]);
      RecordKeeps(p, order, missions, records[0]);
      RecordsKeep(t, order, missions, records[1..]);
      KeptChains(p, t, q, missions);
    }
  }

  lemma KeptChains(p: Progress, t: Progress, q: Progress, missions: seq<set<nat>>)
    requires Kept(p, t, missions) && Kept(t, q, missions)
    ensures Kept(p, q, missions)
  {
    IdentityChains(p.airspaces, t.airspaces, q.airspaces, p.nextId, t.nextId);
  }

  lemma {:induction false} RecordsLeaveOthers(
    p: Progress, order: Order, missions: seq<set<nat>>, records: seq<Record>, externals: set<nat>)
    requires DistinctIds(p.airspaces, p.nextId) && OnePerRecord(p.airspaces)
    requires forall e :: Touched(ImportRecords(p, order, missions, records).changes, e) ==> e in externals
    ensures Others(ImportRecords(p, order, missions, records).airspaces, order.id, externals)
         == Others(p.airspaces, order.id, externals)
    decreases |records|
  {
    if records != [] && !p.failed {
      var t := ImportRecord(p, order, missions, records[0]);
      var q := ImportRecords(t, order, missions, records[1..]);
      RecordKeeps(p, order, missions, records[0]);
      RecordsKeep(t, order, missions, records[1..]);
      forall e | Touched(t.changes, e) ensures e in externals {
        TouchedStays(t.changes, q.changes, e);
      }
      RecordEdits(p, order, missions, records[0]);
      EditLeavesOthers(p, t, order.id, records[0].external, missions, externals);
      RecordsLeaveOthers(t, order, missions, records[1..], externals);
    }
  }

  lemma TouchedStays(a: seq<Note>, b: seq<Note>, external: nat)
    requires a <= b && Touched(a, external)
    ensures Touched(b, external)
  {
    var i :| 0 <= i < |a| && a[i].external == external && a[i].kind != Unchanged && a[i].kind != Excluded;
    assert b[i] == a[i];
  }

  /** The record loop: identities stay unique, missions keep their airspaces, and what no change names
      stays as it was and in order. */
  lemma ImportKeepsPlan(airspaces: seq<Airspace>, nextId: nat, order: Order, missions: seq<set<nat>>, externals: set<nat>)
    requires DistinctIds(airspaces, nextId) && OnePerRecord(airspaces)
    ensures var q := Import(airspaces, nextId, order, missions);
            && nextId <= q.nextId && DistinctIds(q.airspaces, q.nextId) && OnePerRecord(q.airspaces)
            && KeepsReferenced(airspaces, q.airspaces, missions) && KeepsIdentity(airspaces, q.airspaces, nextId)
            && ((forall e :: Touched(q.changes, e) ==> e in externals) ==>
                  Others(q.airspaces, order.id, externals) == Others(airspaces, order.id, externals))
  {
    var p := Progress(airspaces, [], [], nextId, false);
    RecordsKeep(p, order, missions, order.records);
    if forall e :: Touched(Import(airspaces, nextId, order, missions).changes, e) ==> e in externals {
      RecordsLeaveOthers(p, order, missions, order.records, externals);
    }
  }
}
