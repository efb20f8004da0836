/** When an import is accepted, and the plan it then leaves, said of the order and the draft as they are
    beforehand: no working copy, no sequence of edits. */
module AirspaceResult {
  import opened Ordered
  import opened AirspaceImport
  import opened AirspaceSafety
  import opened AirspaceReimport

  // ---- The plan an order asks for ----------------------------------------------------------------

  /** The record, not excluded, that speaks of this external identifier. */
  function Wanted(records: seq<Record>, external: nat): Option<Record> {
    if records == [] then None
    else
      var last := records[|records| - 1];
      if !last.excluded && last.external == external then Some(last) else Wanted(records[..|records| - 1], external)
  }

  /** What becomes of one airspace of the draft: one of this order from an earlier message is dropped if it is
      cancelled, and written anew under its identifier and control method if it is spoken of otherwise. */
  function Rewritten(a: Airspace, order: Order, records: seq<Record>): seq<Airspace> {
    if a.source.None? || a.source.value.order != order.id || a.source.value.hash == order.hash then [a]
    else
      var wanted := Wanted(records, a.source.value.external);
      if wanted.None? then [a]
      else if wanted.value.action == Cancel then []
      else if wanted.value.controller.None? || wanted.value.payload.None? then [a]
      else
        [Airspace(a.id, Some(Source(order.id, wanted.value.external, order.hash)), wanted.value.controller.value, a.procedure,
                  wanted.value.payload.value)]
  }

  function AllRewritten(airspaces: seq<Airspace>, order: Order, records: seq<Record>): seq<Airspace> {
    if airspaces == [] then [] else Rewritten(airspaces[0], order, records) + AllRewritten(airspaces[1..], order, records)
  }

  /** The record creates an airspace: the draft has none from it. */
  predicate Creates(airspaces: seq<Airspace>, order: Order, r: Record) {
    && !r.excluded && r.action == Create && r.controller.Some? && r.payload.Some?
    && forall i :: 0 <= i < |airspaces| ==> !Matches(airspaces[i], order.id, r.external)
  }

  /** The new airspaces, in the order of their records, under consecutive identifiers. */
  function Additions(airspaces: seq<Airspace>, order: Order, records: seq<Record>, nextId: nat): seq<Airspace> {
    if records == [] then []
    else
      var front, r := Additions(airspaces, order, records[..|records| - 1], nextId), records[|records| - 1];
      if Creates(airspaces, order, r)
      then front + [Airspace(nextId + |front|, Some(Source(order.id, r.external, order.hash)), r.controller.value, PROCEDURAL, r.payload.value)]
      else front
  }

  function Resulting(airspaces: seq<Airspace>, nextId: nat, order: Order): seq<Airspace> {
    AllRewritten(airspaces, order, order.records) + Additions(airspaces, order, order.records, nextId)
  }

  /** Nothing stands against the record: it has no issue, and is installed already, or finds its target if it
      needs one, is not referenced if it cancels, and has a controller and a volume if it writes. */
  ghost predicate Fits(airspaces: seq<Airspace>, missions: seq<set<nat>>, order: Order, r: Record) {
    r.excluded
    || (!r.issues
        && (Installed(airspaces, order, r.external)
            || match r.action
               case Cancel =>
                 exists a :: a in airspaces && Matches(a, order.id, r.external) && forall m :: m in missions ==> a.id !in m
               case Change => !Absent(airspaces, order.id, r.external) && r.controller.Some? && r.payload.Some?
               case Create => r.controller.Some? && r.payload.Some?))
  }

  ghost predicate AllFit(airspaces: seq<Airspace>, missions: seq<set<nat>>, order: Order, records: seq<Record>) {
    forall i :: 0 <= i < |records| ==> Fits(airspaces, missions, order, records[i])
  }

  /** Some record asks for a change. */
  ghost predicate Asks(airspaces: seq<Airspace>, order: Order, records: seq<Record>) {
    exists i :: 0 <= i < |records| && !records[i].excluded && !Installed(airspaces, order, records[i].external)
  }

  // ---- What a record leaves alone -----------------------------------------------------------------

  lemma {:induction false} NoneWanted(records: seq<Record>, external: nat)
    requires forall i :: 0 <= i < |records| ==> records[i].external != external
    ensures Wanted(records, external) == None
  {
    if records != [] {
      NoneWanted(records[..|records| - 1], external);
    }
  }

  lemma {:induction false} RewrittenConcat(a: seq<Airspace>, b: seq<Airspace>, order: Order, records: seq<Record>)
    ensures AllRewritten(a + b, order, records) == AllRewritten(a, order, records) + AllRewritten(b, order, records)
  {
    if a == [] {
      assert a + b == b;
    } else {
      assert (a + b)[1..] == a[1..] + b;
      RewrittenConcat(a[1..], b, order, records);
    }
  }

  /** Nothing gets a new origin. */
  lemma {:induction false} RewrittenOrigins(airspaces: seq<Airspace>, order: Order, records: seq<Record>, external: nat)
    requires Absent(airspaces, order.id, external)
    ensures Absent(AllRewritten(airspaces, order, records), order.id, external)
  {
    if airspaces != [] {
      assert airspaces[0] in airspaces;
      WantedExternal(records, if airspaces[0].source.Some? then airspaces[0].source.value.external else 0);
      RewrittenOrigins(airspaces[1..], order, records, external);
    }
  }

  lemma {:induction false} WantedExternal(records: seq<Record>, external: nat)
    ensures Wanted(records, external).Some? ==>
              Wanted(records, external).value.external == external && Wanted(records, external).value in records
              && !Wanted(records, external).value.excluded
  {
    if records != [] {
      WantedExternal(records[..|records| - 1], external);
    }
  }

  lemma {:induction false} AdditionsOrigins(airspaces: seq<Airspace>, order: Order, records: seq<Record>, nextId: nat, external: nat)
    requires forall i :: 0 <= i < |records| ==> records[i].external != external
    ensures Absent(Additions(airspaces, order, records, nextId), order.id, external)
  {
    if records != [] {
      AdditionsOrigins(airspaces, order, records[..|records| - 1], nextId, external);
    }
  }

  /** A further record changes only airspaces of its own origin that come from another message. */
  lemma {:induction false} FurtherRecord(airspaces: seq<Airspace>, order: Order, records: seq<Record>, r: Record)
    requires r.excluded || forall x :: x in airspaces && Matches(x, order.id, r.external) ==> x.source.value.hash == order.hash
    ensures AllRewritten(airspaces, order, records + [r]) == AllRewritten(airspaces, order, records)
  {
    if airspaces != [] {
      assert airspaces[0] in airspaces;
      assert (records + [r])[..|records|] == records;
      FurtherRecord(airspaces[1..], order, records, r);
    }
  }

  lemma FurtherAddition(airspaces: seq<Airspace>, order: Order, records: seq<Record>, r: Record, nextId: nat)
    ensures Additions(airspaces, order, records + [r], nextId) == Additions(airspaces, order, records, nextId) +
              (if Creates(airspaces, order, r) then
                 [Airspace(nextId + |Additions(airspaces, order, records, nextId)|, Some(Source(order.id, r.external, order.hash)),
                           r.controller.value, PROCEDURAL, r.payload.value)]
               else [])
  {
    assert (records + [r])[..|records|] == records;
  }

  // ---- The working copy after some records -------------------------------------------------------

  /** The copy holds what the records so far ask for. */
  ghost predicate Holds(p: Progress, airspaces: seq<Airspace>, nextId: nat, order: Order, records: seq<Record>) {
    && p.airspaces == AllRewritten(airspaces, order, records) + Additions(airspaces, order, records, nextId)
    && p.nextId == nextId + |Additions(airspaces, order, records, nextId)|
    && p.blocked == [] && !p.failed
    && (Alters(p.changes) <==> Asks(airspaces, order, records))
  }

  lemma NoPosition(airspaces: seq<Airspace>, order: nat, external: nat)
    requires Absent(airspaces, order, external)
    ensures Position(airspaces, order, external) == None
  {
    forall i | 0 <= i < |airspaces| ensures !Matches(airspaces[i], order, external) {
      assert airspaces[i] in airspaces;
    }
  }

  lemma FirstPosition(a: seq<Airspace>, x: Airspace, b: seq<Airspace>, order: nat, external: nat)
    requires Absent(a, order, external) && Matches(x, order, external)
    ensures Position(a + [x] + b, order, external) == Some(|a|)
  {
    var all := a + [x] + b;
    assert Matches(all[|a|], order, external);
    forall i | 0 <= i < |a| ensures !Matches(all[i], order, external) {
      assert all[i] == a[i] && a[i] in a;
    }
  }

  lemma AltersGrows(changes: seq<Note>, note: Note)
    ensures Alters(changes + [note]) <==> Alters(changes) || (note.kind != Unchanged && note.kind != Excluded)
  {
    var grown := changes + [note];
    if Alters(changes) {
      var i :| 0 <= i < |changes| && changes[i].kind != Unchanged && changes[i].kind != Excluded;
      assert grown[i] == changes[i];
    }
    if note.kind != Unchanged && note.kind != Excluded {
      assert grown[|changes|] == note;
    }
  }

  lemma AsksGrows(airspaces: seq<Airspace>, order: Order, records: seq<Record>, r: Record)
    ensures Asks(airspaces, order, records + [r]) <==>
              Asks(airspaces, order, records) || (!r.excluded && !Installed(airspaces, order, r.external))
  {
    var grown := records + [r];
    if Asks(airspaces, order, records) {
      var i :| 0 <= i < |records| && !records[i].excluded && !Installed(airspaces, order, records[i].external);
      assert grown[i] == records[i];
    }
    assert grown[|records|] == r;
  }

  ghost predicate NewTo(records: seq<Record>, external: nat) {
    forall i :: 0 <= i < |records| ==> records[i].external != external
  }

  /** A record whose airspace the draft does not have. */
  lemma AbsentStep(
    p: Progress, airspaces: seq<Airspace>, nextId: nat, order: Order, missions: seq<set<nat>>, records: seq<Record>, r: Record)
    requires Holds(p, airspaces, nextId, order, records) && NewTo(records, r.external) && Readable(r) && !r.excluded
    requires Absent(airspaces, order.id, r.external)
    ensures var q := ImportRecord(p, order, missions, r);
            if Fits(airspaces, missions, order, r) then Holds(q, airspaces, nextId, order, records + [r])
            else q.blocked != [] || q.failed
  {
    RewrittenOrigins(airspaces, order, records, r.external);
    AdditionsOrigins(airspaces, order, records, nextId, r.external);
    NoPosition(p.airspaces, order.id, r.external);
    FurtherRecord(airspaces, order, records, r);
    FurtherAddition(airspaces, order, records, r, nextId);
    AsksGrows(airspaces, order, records, r);
    assert forall i :: 0 <= i < |airspaces| ==> airspaces[i] in airspaces;
    AltersGrows(p.changes, Note(r.external, Created, Some(p.nextId)));
  }

  lemma ExcludedStep(
    p: Progress, airspaces: seq<Airspace>, nextId: nat, order: Order, missions: seq<set<nat>>, records: seq<Record>, r: Record)
    requires Holds(p, airspaces, nextId, order, records) && r.excluded
    ensures Holds(ImportRecord(p, order, missions, r), airspaces, nextId, order, records + [r])
  {
    FurtherRecord(airspaces, order, records, r);
    FurtherAddition(airspaces, order, records, r, nextId);
    AsksGrows(airspaces, order, records, r);
    AltersGrows(p.changes, Note(r.external, Excluded, None));
  }

  lemma UnwantedStays(x: Airspace, order: Order, records: seq<Record>, external: nat)
    requires Matches(x, order.id, external) && NewTo(records, external)
    ensures Rewritten(x, order, records) == [x]
  {
    NoneWanted(records, external);
  }

  /** Where the record's airspace stands, as the draft has it. */
  lemma Located(p: Progress, airspaces: seq<Airspace>, nextId: nat, order: Order, records: seq<Record>, r: Record, k: nat)
    requires Holds(p, airspaces, nextId, order, records) && NewTo(records, r.external) && OnePerRecord(airspaces)
    requires k < |airspaces| && Matches(airspaces[k], order.id, r.external)
    ensures var a, b := AllRewritten(airspaces[..k], order, records), AllRewritten(airspaces[k + 1..], order, records);
            && p.airspaces == a + [airspaces[k]] + (b + Additions(airspaces, order, records, nextId))
            && Position(p.airspaces, order.id, r.external) == Some(|a|)
    ensures Absent(airspaces[..k], order.id, r.external) && Absent(airspaces[k + 1..], order.id, r.external)
  {
    var x := airspaces[k];
    OthersAbsent(airspaces, order, r, k);
    UnwantedStays(x, order, records, r.external);
    SplitRewritten(airspaces, k, order, records);
    RewrittenOrigins(airspaces[..k], order, records, r.external);
    var a, b := AllRewritten(airspaces[..k], order, records), AllRewritten(airspaces[k + 1..], order, records);
    Regroup(a, [x], b, Additions(airspaces, order, records, nextId));
    FirstPosition(a, x, b + Additions(airspaces, order, records, nextId), order.id, r.external);
  }

  lemma SplitRewritten(airspaces: seq<Airspace>, k: nat, order: Order, records: seq<Record>)
    requires k < |airspaces|
    ensures AllRewritten(airspaces, order, records)
         == AllRewritten(airspaces[..k], order, records) + Rewritten(airspaces[k], order, records)
            + AllRewritten(airspaces[k + 1..], order, records)
  {
    assert airspaces == airspaces[..k] + airspaces[k..];
    RewrittenConcat(airspaces[..k], airspaces[k..], order, records);
    assert airspaces[k..][1..] == airspaces[k + 1..];
  }

  /** The record's airspace comes from this very message already. */
  lemma InstalledStep(
    p: Progress, airspaces: seq<Airspace>, nextId: nat, order: Order, missions: seq<set<nat>>, records: seq<Record>, r: Record, k: nat)
    requires Holds(p, airspaces, nextId, order, records) && NewTo(records, r.external) && OnePerRecord(airspaces) && !r.excluded
    requires k < |airspaces| && Matches(airspaces[k], order.id, r.external) && airspaces[k].source.value.hash == order.hash
    ensures var q := ImportRecord(p, order, missions, r);
            if Fits(airspaces, missions, order, r) then Holds(q, airspaces, nextId, order, records + [r])
            else q.blocked != [] || q.failed
  {
    Located(p, airspaces, nextId, order, records, r, k);
    assert airspaces[k] in airspaces && Installed(airspaces, order, r.external);
    OnlyOne(airspaces, order, r, k);
    FurtherRecord(airspaces, order, records, r);
    FurtherAddition(airspaces, order, records, r, nextId);
    AsksGrows(airspaces, order, records, r);
    AltersGrows(p.changes, Note(r.external, Unchanged, Some(airspaces[k].id)));
  }

  lemma OnlyOne(airspaces: seq<Airspace>, order: Order, r: Record, k: nat)
    requires OnePerRecord(airspaces) && k < |airspaces| && Matches(airspaces[k], order.id, r.external)
    ensures forall x :: x in airspaces && Matches(x, order.id, r.external) ==> x == airspaces[k]
  {
    forall x | x in airspaces && Matches(x, order.id, r.external) ensures x == airspaces[k] {
      var i :| 0 <= i < |airspaces| && airspaces[i] == x;
    }
  }

  lemma ReferencedInMission(missions: seq<set<nat>>, id: nat)
    ensures Referenced(missions, id) <==> exists m :: m in missions && id in m
  {
  }

  lemma CancelEffect(p: Progress, order: Order, missions: seq<set<nat>>, r: Record, a: seq<Airspace>, x: Airspace, c: seq<Airspace>)
    requires p.airspaces == a + [x] + c && Position(p.airspaces, order.id, r.external) == Some(|a|)
    requires !r.excluded && r.action == Cancel && x.source.Some? && x.source.value.hash != order.hash
    ensures var q := ImportRecord(p, order, missions, r);
            if Referenced(missions, x.id) then q == p.(blocked := p.blocked + [r.external])
            else q == p.(airspaces := a + c, changes := p.changes + [Note(r.external, Cancelled, Some(x.id))],
                         blocked := if r.issues then p.blocked + [r.external] else p.blocked)
  {
    assert p.airspaces[|a|] == x && p.airspaces[..|a|] == a && p.airspaces[|a| + 1..] == c;
  }

  lemma WriteEffect(p: Progress, order: Order, missions: seq<set<nat>>, r: Record, a: seq<Airspace>, x: Airspace, c: seq<Airspace>)
    requires p.airspaces == a + [x] + c && Position(p.airspaces, order.id, r.external) == Some(|a|)
    requires !r.excluded && r.action != Cancel && Readable(r) && x.source.Some? && x.source.value.hash != order.hash
    ensures var q := ImportRecord(p, order, missions, r);
            if r.issues || r.controller.None? then q == p.(blocked := p.blocked + [r.external])
            else if r.payload.None? then q == p.(failed := true)
            else
              q == p.(airspaces := a + [Airspace(x.id, Some(Source(order.id, r.external, order.hash)), r.controller.value,
                                                 x.procedure, r.payload.value)] + c,
                      changes := p.changes + [Note(r.external, Changed, Some(x.id))])
  {
    assert p.airspaces[|a|] == x;
    if r.controller.Some? && r.payload.Some? {
      var y := Airspace(x.id, Some(Source(order.id, r.external, order.hash)), r.controller.value, x.procedure, r.payload.value);
      assert p.airspaces[|a| := y] == a + [y] + c;
    }
  }

  /** The copy after the one airspace was dropped or written anew. */
  lemma PresentHolds(
    p: Progress, q: Progress, airspaces: seq<Airspace>, nextId: nat, order: Order, records: seq<Record>, r: Record, k: nat,
    note: Note)
    requires Holds(p, airspaces, nextId, order, records) && NewTo(records, r.external) && OnePerRecord(airspaces) && !r.excluded
    requires k < |airspaces| && Matches(airspaces[k], order.id, r.external) && airspaces[k].source.value.hash != order.hash
    requires r.action == Cancel || (r.controller.Some? && r.payload.Some?)
    requires !Installed(airspaces, order, r.external) && note.kind != Unchanged && note.kind != Excluded
    requires q.blocked == p.blocked && !q.failed && q.nextId == p.nextId && q.changes == p.changes + [note]
    requires var a, b := AllRewritten(airspaces[..k], order, records), AllRewritten(airspaces[k + 1..], order, records);
             q.airspaces == a + (if r.action == Cancel then []
                                 else [Airspace(airspaces[k].id, Some(Source(order.id, r.external, order.hash)), r.controller.value,
                                                airspaces[k].procedure, r.payload.value)])
                            + (b + Additions(airspaces, order, records, nextId))
    ensures Holds(q, airspaces, nextId, order, records + [r])
  {
    OthersAbsent(airspaces, order, r, k);
    NotOnlyCreated(airspaces, order, r, k);
    FurtherAddition(airspaces, order, records, r, nextId);
    AsksGrows(airspaces, order, records, r);
    AltersGrows(p.changes, note);
    RewritesOne(airspaces, order, records, r, k);
    var a, b := AllRewritten(airspaces[..k], order, records), AllRewritten(airspaces[k + 1..], order, records);
    var middle := if r.action == Cancel then []
                  else [Airspace(airspaces[k].id, Some(Source(order.id, r.external, order.hash)), r.controller.value,
                                 airspaces[k].procedure, r.payload.value)];
    Regroup(a, middle, b, Additions(airspaces, order, records, nextId));
  }

  lemma Regroup(a: seq<Airspace>, m: seq<Airspace>, b: seq<Airspace>, c: seq<Airspace>)
    ensures a + m + (b + c) == a + m + b + c
  {
  }

  lemma OthersAbsent(airspaces: seq<Airspace>, order: Order, r: Record, k: nat)
    requires OnePerRecord(airspaces) && k < |airspaces| && Matches(airspaces[k], order.id, r.external)
    ensures Absent(airspaces[..k], order.id, r.external) && Absent(airspaces[k + 1..], order.id, r.external)
  {
    forall y | y in airspaces[..k] || y in airspaces[k + 1..] ensures !Matches(y, order.id, r.external) {
      var i :| 0 <= i < |airspaces| && i != k && airspaces[i] == y;
    }
  }

  /** The record is about an airspace of an earlier message. */
  lemma PresentStep(
    p: Progress, airspaces: seq<Airspace>, nextId: nat, order: Order, missions: seq<set<nat>>, records: seq<Record>, r: Record, k: nat)
    requires Holds(p, airspaces, nextId, order, records) && NewTo(records, r.external) && OnePerRecord(airspaces) && !r.excluded
    requires k < |airspaces| && Matches(airspaces[k], order.id, r.external) && airspaces[k].source.value.hash != order.hash
    requires Readable(r)
    ensures var q := ImportRecord(p, order, missions, r);
            if Fits(airspaces, missions, order, r) then Holds(q, airspaces, nextId, order, records + [r])
            else q.blocked != [] || q.failed
  {
    var x, q := airspaces[k], ImportRecord(p, order, missions, r);
    var a, b := AllRewritten(airspaces[..k], order, records), AllRewritten(airspaces[k + 1..], order, records);
    var c := b + Additions(airspaces, order, records, nextId);
    Located(p, airspaces, nextId, order, records, r, k);
    FitsPresent(airspaces, missions, order, r, k);
    if r.action == Cancel {
      CancelEffect(p, order, missions, r, a, x, c);
      assert a + [] == a;
    } else {
      WriteEffect(p, order, missions, r, a, x, c);
    }
    if Fits(airspaces, missions, order, r) {
      PresentHolds(p, q, airspaces, nextId, order, records, r, k,
                   Note(r.external, if r.action == Cancel then Cancelled else Changed, Some(x.id)));
    }
  }

  lemma NotOnlyCreated(airspaces: seq<Airspace>, order: Order, r: Record, k: nat)
    requires k < |airspaces| && Matches(airspaces[k], order.id, r.external)
    ensures !Creates(airspaces, order, r)
  {
  }

  lemma FitsPresent(airspaces: seq<Airspace>, missions: seq<set<nat>>, order: Order, r: Record, k: nat)
    requires OnePerRecord(airspaces) && !r.excluded
    requires k < |airspaces| && Matches(airspaces[k], order.id, r.external) && airspaces[k].source.value.hash != order.hash
    ensures !Installed(airspaces, order, r.external)
    ensures Fits(airspaces, missions, order, r) <==>
              !r.issues && (if r.action == Cancel then !Referenced(missions, airspaces[k].id)
                            else r.controller.Some? && r.payload.Some?)
  {
    OnlyOne(airspaces, order, r, k);
    assert airspaces[k] in airspaces;
    ReferencedInMission(missions, airspaces[k].id);
  }

  /** Only the one airspace is written anew or dropped. */
  lemma RewritesOne(airspaces: seq<Airspace>, order: Order, records: seq<Record>, r: Record, k: nat)
    requires k < |airspaces| && Matches(airspaces[k], order.id, r.external) && airspaces[k].source.value.hash != order.hash
    requires !r.excluded && (r.action == Cancel || (r.controller.Some? && r.payload.Some?))
    requires Absent(airspaces[..k], order.id, r.external) && Absent(airspaces[k + 1..], order.id, r.external)
    ensures AllRewritten(airspaces, order, records + [r])
         == AllRewritten(airspaces[..k], order, records)
            + (if r.action == Cancel then []
               else [Airspace(airspaces[k].id, Some(Source(order.id, r.external, order.hash)), r.controller.value,
                              airspaces[k].procedure, r.payload.value)])
            + AllRewritten(airspaces[k + 1..], order, records)
  {
    SplitRewritten(airspaces, k, order, records + [r]);
    FurtherRecord(airspaces[..k], order, records, r);
    FurtherRecord(airspaces[k + 1..], order, records, r);
  }

  lemma RecordStep(
    p: Progress, airspaces: seq<Airspace>, nextId: nat, order: Order, missions: seq<set<nat>>, records: seq<Record>, r: Record)
    requires Holds(p, airspaces, nextId, order, records) && NewTo(records, r.external) && OnePerRecord(airspaces) && Readable(r)
    ensures var q := ImportRecord(p, order, missions, r);
            if Fits(airspaces, missions, order, r) then Holds(q, airspaces, nextId, order, records + [r])
            else q.blocked != [] || q.failed
  {
    if r.excluded {
      ExcludedStep(p, airspaces, nextId, order, missions, records, r);
    } else if k: nat :| k < |airspaces| && Matches(airspaces[k], order.id, r.external) {
      if airspaces[k].source.value.hash == order.hash {
        InstalledStep(p, airspaces, nextId, order, missions, records, r, k);
      } else {
        PresentStep(p, airspaces, nextId, order, missions, records, r, k);
      }
    } else {
      AbsentStep(p, airspaces, nextId, order, missions, records, r);
    }
  }

  // ---- The whole import -----------------------------------------------------------------------------

  lemma {:induction false} ImportAppends(p: Progress, order: Order, missions: seq<set<nat>>, records: seq<Record>, r: Record)
    ensures var t := ImportRecords(p, order, missions, records);
            ImportRecords(p, order, missions, records + [r]) == if t.failed then t else ImportRecord(t, order, missions, r)
    decreases |records|
  {
    if records == [] {
      assert ([] + [r])[1..] == [] && records + [r] == [r];
      assert p.failed || ImportRecords(p, order, missions, [r]) == ImportRecords(ImportRecord(p, order, missions, r), order, missions, []);
    } else if !p.failed {
      assert (records + [r])[1..] == records[1..] + [r];
      ImportAppends(ImportRecord(p, order, missions, records[0]), order, missions, records[1..], r);
    }
  }

  lemma ObjectionStays(t: Progress, order: Order, missions: seq<set<nat>>, r: Record)
    requires t.blocked != []
    ensures ImportRecord(t, order, missions, r).blocked != []
  {
    RecordEdits(t, order, missions, r);
  }

  lemma {:induction false} ImportHolds(
    airspaces: seq<Airspace>, nextId: nat, order: Order, missions: seq<set<nat>>, records: seq<Record>)
    requires OnePerRecord(airspaces) && AirspaceReimport.Distinct(records)
    requires forall i :: 0 <= i < |records| ==> Readable(records[i])
    ensures var p := ImportRecords(Progress(airspaces, [], [], nextId, false), order, missions, records);
            if AllFit(airspaces, missions, order, records) then Holds(p, airspaces, nextId, order, records)
            else p.blocked != [] || p.failed
    decreases |records|
  {
    var start := Progress(airspaces, [], [], nextId, false);
    if records == [] {
      NothingAsked(airspaces, order);
    } else {
      var front, r := records[..|records| - 1], records[|records| - 1];
      ImportHolds(airspaces, nextId, order, missions, front);
      assert records == front + [r];
      ImportAppends(start, order, missions, front, r);
      var t := ImportRecords(start, order, missions, front);
      if AllFit(airspaces, missions, order, front) {
        RecordStep(t, airspaces, nextId, order, missions, front, r);
      } else if !t.failed {
        ObjectionStays(t, order, missions, r);
      }
      AllFitGrows(airspaces, missions, order, front, r);
    }
  }

  lemma AllFitGrows(airspaces: seq<Airspace>, missions: seq<set<nat>>, order: Order, records: seq<Record>, r: Record)
    ensures AllFit(airspaces, missions, order, records + [r]) <==>
              AllFit(airspaces, missions, order, records) && Fits(airspaces, missions, order, r)
  {
    var grown := records + [r];
    if AllFit(airspaces, missions, order, grown) {
      assert grown[|records|] == r;
      forall i | 0 <= i < |records| ensures Fits(airspaces, missions, order, records[i]) {
        assert grown[i] == records[i];
      }
    }
  }

  lemma {:induction false} NothingAsked(airspaces: seq<Airspace>, order: Order)
    ensures AllRewritten(airspaces, order, []) == airspaces
  {
    if airspaces != [] {
      NothingAsked(airspaces[1..], order);
    }
  }

  /** The draft a role works on: its own, else what it received, else its part of the template. */
  ghost predicate WorksOn(s: State, role: nat, plan: Plan) {
    if role in s.drafts then s.drafts[role] == plan
    else if role in s.received then s.received[role] == plan
    else s.template == Some((role, plan))
  }

  /** The exact condition. A parsed order is accepted if and only if the role takes part and works on a draft of
      the expected revision, neither the order nor any record has an objection against it, and the resulting
      plan is sound. The draft is then the resulting one: one revision on and no longer published if any record
      asks for a change, and otherwise as it was. */
  lemma AcceptedExactly(s: State, role: nat, expected: nat, order: Order, check: Check, plan: Plan)
    requires Sound(s) && Parsed(order) && WorksOn(s, role, plan)
    ensures var (t, response) := Apply(s, role, expected, order, check);
            var result := Resulting(plan.airspaces, s.nextId, order);
            && (response == Applied <==>
                  role in s.participants && plan.revision == expected && !order.issues
                  && AllFit(plan.airspaces, plan.missions, order, order.records) && check(result, plan.missions))
            && (response == Applied ==>
                  if Asks(plan.airspaces, order, order.records)
                  then role in t.drafts && t.drafts[role] == plan.(airspaces := result, revision := expected + 1, published := None)
                  else t == s && result == plan.airspaces)
  {
    assert Draft(s, role) == Some(plan);
    if !order.issues {
      ImportHolds(plan.airspaces, s.nextId, order, plan.missions, order.records);
      if !Asks(plan.airspaces, order, order.records) {
        NothingChanges(plan.airspaces, s.nextId, order, order.records);
      }
    }
  }

  lemma {:induction false} NothingChanges(airspaces: seq<Airspace>, nextId: nat, order: Order, records: seq<Record>)
    requires OnePerRecord(airspaces) && !Asks(airspaces, order, records)
    ensures AllRewritten(airspaces, order, records) == airspaces && Additions(airspaces, order, records, nextId) == []
    decreases |records|
  {
    if records == [] {
      NothingAsked(airspaces, order);
    } else {
      var front, r := records[..|records| - 1], records[|records| - 1];
      assert records == front + [r];
      AsksGrows(airspaces, order, front, r);
      NothingChanges(airspaces, nextId, order, front);
      if !r.excluded {
        var x :| x in airspaces && Matches(x, order.id, r.external) && x.source.value.hash == order.hash;
        var k :| 0 <= k < |airspaces| && airspaces[k] == x;
        OnlyOne(airspaces, order, r, k);
      }
      FurtherRecord(airspaces, order, front, r);
      FurtherAddition(airspaces, order, front, r, nextId);
    }
  }

  /** No role without a draft, and nobody but a participant, can import. */
  lemma RefusedWithoutDraft(s: State, role: nat, expected: nat, order: Order, check: Check)
    requires role !in s.participants || forall plan :: !WorksOn(s, role, plan)
    ensures Apply(s, role, expected, order, check) == (s, Refused(if role !in s.participants then NotParticipant else NoProduct))
  {
    if Draft(s, role).Some? {
      assert WorksOn(s, role, Draft(s, role).value);
    }
  }

  lemma {:induction false} AddedFor(airspaces: seq<Airspace>, order: Order, records: seq<Record>, nextId: nat, k: nat)
    requires k < |records| && Creates(airspaces, order, records[k]) && AirspaceReimport.Distinct(records)
    ensures exists x :: NewFrom(x, Additions(airspaces, order, records, nextId), order, records[k], nextId)
    decreases |records|
  {
    var front, r := records[..|records| - 1], records[|records| - 1];
    var before, all := Additions(airspaces, order, front, nextId), Additions(airspaces, order, records, nextId);
    if k == |front| {
      AdditionsOrigins(airspaces, order, front, nextId, r.external);
      var x := all[|before|];
      assert all == before + [x] && x in all;
      assert NewFrom(x, all, order, r, nextId);
    } else {
      AddedFor(airspaces, order, front, nextId, k);
      var x :| NewFrom(x, before, order, records[k], nextId);
      assert x in all;
      assert NewFrom(x, all, order, records[k], nextId);
    }
  }

  /** The one airspace of the record's origin among these, new and with the record's fields. */
  ghost predicate NewFrom(x: Airspace, airspaces: seq<Airspace>, order: Order, r: Record, nextId: nat) {
    && x in airspaces && x.id >= nextId
    && x.source == Some(Source(order.id, r.external, order.hash))
    && Some(x.controller) == r.controller && Some(x.payload) == r.payload && x.procedure == PROCEDURAL
    && (forall y :: y in airspaces && Matches(y, order.id, r.external) ==> y == x)
  }

  /** A record of an accepted order that creates an airspace the draft does not have adds exactly one, under a
      new identifier and with the record's fields. */
  lemma CreateAddsOne(s: State, role: nat, expected: nat, order: Order, check: Check, plan: Plan, k: nat)
    requires Sound(s) && Parsed(order) && WorksOn(s, role, plan) && Apply(s, role, expected, order, check).1 == Applied
    requires k < |order.records| && !order.records[k].excluded && order.records[k].action == Create
    requires Absent(plan.airspaces, order.id, order.records[k].external)
    ensures var t := Apply(s, role, expected, order, check).0;
            role in t.drafts && exists x :: NewFrom(x, t.drafts[role].airspaces, order, order.records[k], s.nextId)
  {
    var r := order.records[k];
    AcceptedExactly(s, role, expected, order, check, plan);
    assert Fits(plan.airspaces, plan.missions, order, r);
    assert forall i :: 0 <= i < |plan.airspaces| ==> plan.airspaces[i] in plan.airspaces;
    assert Creates(plan.airspaces, order, r);
    AddedFor(plan.airspaces, order, order.records, s.nextId, k);
    RewrittenOrigins(plan.airspaces, order, order.records, r.external);
    var added := Additions(plan.airspaces, order, order.records, s.nextId);
    var x :| NewFrom(x, added, order, r, s.nextId);
    assert Asks(plan.airspaces, order, order.records);
    assert NewFrom(x, Resulting(plan.airspaces, s.nextId, order), order, r, s.nextId);
  }
}
