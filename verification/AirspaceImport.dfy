/** Airspace orders imported into a planning draft, crates/server/src/airspace_import.rs: every record
    is worked out on a copy of the draft, and the copy replaces the draft whole or not at all. */
module AirspaceImport {
  import opened Ordered

  datatype Source = Source(order: nat, external: nat, hash: nat)

  /** payload stands for name, kind, outline, limits and periods together. */
  datatype Airspace = Airspace(id: nat, source: Option<Source>, controller: nat, procedure: nat, payload: nat)

  const PROCEDURAL: nat := 0

  datatype Action = Create | Change | Cancel

  /** A parsed record. kindKnown: its purpose is one the simulation has; controller: the allied role it
      resolves to; payload: its volume, unless normalisation fails; issues: the parser's objections. */
  datatype Record = Record(
    external: nat, action: Action, kindKnown: bool, controller: Option<nat>, payload: Option<nat>,
    issues: bool, excluded: bool)
  datatype Order = Order(id: nat, hash: nat, records: seq<Record>, issues: bool)

  datatype ChangeKind = Created | Changed | Cancelled | Unchanged | Excluded
  datatype Note = Note(external: nat, kind: ChangeKind, airspace: Option<nat>)

  /** missions holds the airspaces each mission of the plan needs clearance for. */
  datatype Plan = Plan(revision: nat, airspaces: seq<Airspace>, missions: seq<set<nat>>, published: Option<nat>)

  /** The work on the copy: blocked lists the records that still have an objection, failed a volume that
      could not be normalised. Fresh identifiers are taken from nextId on. */
  datatype Progress = Progress(
    airspaces: seq<Airspace>, changes: seq<Note>, blocked: seq<nat>, nextId: nat, failed: bool)

  predicate Matches(a: Airspace, order: nat, external: nat) {
    a.source.Some? && a.source.value.order == order && a.source.value.external == external
  }

  /** The first airspace that came from this record. */
  function Position(airspaces: seq<Airspace>, order: nat, external: nat): (r: Option<nat>)
    ensures r.Some? ==> r.value < |airspaces| && Matches(airspaces[r.value], order, external)
    ensures r.Some? ==> forall j :: 0 <= j < r.value ==> !Matches(airspaces[j], order, external)
    ensures r.None? ==> forall j :: 0 <= j < |airspaces| ==> !Matches(airspaces[j], order, external)
  {
    if airspaces == [] then None
    else if Matches(airspaces[0], order, external) then Some(0)
    else
      var rest := Position(airspaces[1..], order, external);
      assert forall j :: 0 < j < |airspaces| ==> airspaces[j] == airspaces[1..][j - 1];
      if rest.None? then None else Some(rest.value + 1)
  }

  predicate Referenced(missions: seq<set<nat>>, id: nat) {
    exists i :: 0 <= i < |missions| && id in missions[i]
  }

  function Blocked(p: Progress, r: Record, more: bool): Progress {
    if r.issues || more then p.(blocked := p.blocked + [r.external]) else p
  }

  function Noted(p: Progress, r: Record, kind: ChangeKind, id: Option<nat>): Progress {
    Blocked(p.(changes := p.changes + [Note(r.external, kind, id)]), r, false)
  }

  /** The volume a record describes, in place of the existing one if there is one. */
  function Volume(order: Order, r: Record, id: nat, existing: Option<Airspace>): Airspace
    requires r.controller.Some? && r.payload.Some?
  {
    Airspace(id, Some(Source(order.id, r.external, order.hash)), r.controller.value,
             if existing.Some? then existing.value.procedure else PROCEDURAL, r.payload.value)
  }

  function CancelRecord(p: Progress, missions: seq<set<nat>>, r: Record, i: nat): Progress
    requires i < |p.airspaces|
  {
    var id := p.airspaces[i].id;
    if Referenced(missions, id) then Blocked(p, r, true)
    else Noted(p.(airspaces := p.airspaces[..i] + p.airspaces[i + 1..]), r, Cancelled, Some(id))
  }

  function WriteRecord(p: Progress, order: Order, r: Record, existing: Option<nat>): Progress
    requires existing.Some? ==> existing.value < |p.airspaces|
  {
    if r.controller.None? || r.issues then Blocked(p, r, true)
    else if !r.kindKnown then p
    else if r.payload.None? then p.(failed := true)
    else if existing.Some? then
      var present := p.airspaces[existing.value];
      var volume := Volume(order, r, present.id, Some(present));
      Noted(p.(airspaces := p.airspaces[existing.value := volume]), r, Changed, Some(present.id))
    else
      var volume := Volume(order, r, p.nextId, None);
      Noted(p.(airspaces := p.airspaces + [volume], nextId := p.nextId + 1), r, Created, Some(volume.id))
  }

  function ImportRecord(p: Progress, order: Order, missions: seq<set<nat>>, r: Record): Progress {
    if r.excluded then p.(changes := p.changes + [Note(r.external, Excluded, None)])
    else
      var existing := Position(p.airspaces, order.id, r.external);
      if existing.Some? && p.airspaces[existing.value].source.value.hash == order.hash then
        Noted(p, r, Unchanged, Some(p.airspaces[existing.value].id))
      else if r.action != Create && existing.None? then Blocked(p, r, true)
      else if r.action == Cancel then CancelRecord(p, missions, r, existing.value)
      else WriteRecord(p, order, r, existing)
  }

  function ImportRecords(p: Progress, order: Order, missions: seq<set<nat>>, records: seq<Record>): Progress
    decreases |records|
  {
    if records == [] || p.failed then p
    else ImportRecords(ImportRecord(p, order, missions, records[0]), order, missions, records[1..])
  }

  function Import(airspaces: seq<Airspace>, nextId: nat, order: Order, missions: seq<set<nat>>): Progress {
    ImportRecords(Progress(airspaces, [], [], nextId, false), order, missions, order.records)
  }

  // ---- Drafts -----------------------------------------------------------------------------

  datatype State = State(
    participants: set<nat>, drafts: map<nat, Plan>, received: map<nat, Plan>, template: Option<(nat, Plan)>, nextId: nat)

  /** Which plans are sound as a whole: the validation looks at airspaces and missions. */
  type Check = (seq<Airspace>, seq<set<nat>>) -> bool

  datatype Refusal = NotParticipant | NoProduct | RevisionConflict | Unshapable | Unresolved
  datatype Prepared = Prepared(plan: Plan, changes: seq<Note>, blocked: seq<nat>, valid: bool, nextId: nat) | Rejected(reason: Refusal)
  datatype Response = Applied | Refused(reason: Refusal)

  function Draft(s: State, role: nat): Option<Plan> {
    if role in s.drafts then Some(s.drafts[role])
    else if role in s.received then Some(s.received[role])
    else if s.template.Some? && s.template.value.0 == role then Some(s.template.value.1)
    else None
  }

  function Prepare(s: State, role: nat, expected: nat, order: Order, check: Check): Prepared {
    if role !in s.participants then Rejected(NotParticipant)
    else if Draft(s, role).None? then Rejected(NoProduct)
    else
      var plan := Draft(s, role).value;
      if plan.revision != expected then Rejected(RevisionConflict)
      else
        var p := Import(plan.airspaces, s.nextId, order, plan.missions);
        if p.failed then Rejected(Unshapable)
        else Prepared(plan.(airspaces := p.airspaces), p.changes, p.blocked,
                      !order.issues && check(p.airspaces, plan.missions) && p.blocked == [], p.nextId)
  }

  predicate Alters(changes: seq<Note>) {
    exists i :: 0 <= i < |changes| && changes[i].kind != Unchanged && changes[i].kind != Excluded
  }

  function Apply(s: State, role: nat, expected: nat, order: Order, check: Check): (State, Response) {
    var prepared := Prepare(s, role, expected, order, check);
    if prepared.Rejected? then (s, Refused(prepared.reason))
    else if !prepared.valid then (s, Refused(Unresolved))
    else if !Alters(prepared.changes) then (s, Applied)
    else
      var plan := prepared.plan.(revision := prepared.plan.revision + 1, published := None);
      (s.(drafts := s.drafts[role := plan], nextId := prepared.nextId), Applied)
  }
}
