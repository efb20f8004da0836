/** The import on planning state that is updated in place, proved against module AirspaceImport. */
module AirspaceGame {
  import opened Ordered
  import opened AirspaceImport

  class Game {
    const participants: set<nat>
    var drafts: map<nat, Plan>
    var received: map<nat, Plan>
    var template: Option<(nat, Plan)>
    var nextId: nat

    function Model(): State
      reads this
    {
      State(participants, drafts, received, template, nextId)
    }

    constructor (participants: set<nat>, received: map<nat, Plan>, template: Option<(nat, Plan)>, nextId: nat)
      ensures Model() == State(participants, map[], received, template, nextId)
    {
      this.participants, drafts, this.received, this.template, this.nextId := participants, map[], received, template, nextId;
    }

    /** Search for the airspace a record is about. */
    method Find(airspaces: seq<Airspace>, order: nat, external: nat) returns (existing: Option<nat>)
      ensures existing == Position(airspaces, order, external)
    {
      for i := 0 to |airspaces|
        invariant forall j :: 0 <= j < i ==> !Matches(airspaces[j], order, external)
      {
        if Matches(airspaces[i], order, external) {
          return Some(i);
        }
      }
      return None;
    }

    method AnyMissionNeeds(missions: seq<set<nat>>, id: nat) returns (needed: bool)
      ensures needed == Referenced(missions, id)
    {
      for i := 0 to |missions|
        invariant forall j :: 0 <= j < i ==> id !in missions[j]
      {
        if id in missions[i] {
          return true;
        }
      }
      return false;
    }

    /** One record: edit the copy, note the change, or record an objection. */
    method Take(p: Progress, order: Order, missions: seq<set<nat>>, r: Record) returns (q: Progress)
      ensures q == ImportRecord(p, order, missions, r)
    {
      if r.excluded {
        return p.(changes := p.changes + [Note(r.external, Excluded, None)]);
      }
      var objection := r.issues;
      var existing := Find(p.airspaces, order.id, r.external);
      if existing.Some? && p.airspaces[existing.value].source.value.hash == order.hash {
        return Noted(p, r, Unchanged, Some(p.airspaces[existing.value].id));
      }
      if r.action != Create && existing.None? {
        return p.(blocked := p.blocked + [r.external]);
      }
      if r.action == Cancel {
        var id := p.airspaces[existing.value].id;
        var needed := AnyMissionNeeds(missions, id);
        if needed {
          return p.(blocked := p.blocked + [r.external]);
        }
        q := p.(airspaces := p.airspaces[..existing.value] + p.airspaces[existing.value + 1..]);
        return Noted(q, r, Cancelled, Some(id));
      }
      if r.controller.None? {
        objection := true;
      }
      if objection {
        return p.(blocked := p.blocked + [r.external]);
      }
      if !r.kindKnown {
        return p;
      }
      if r.payload.None? {
        return p.(failed := true);
      }
      var id := if existing.Some? then p.airspaces[existing.value].id else p.nextId;
      var procedure := if existing.Some? then p.airspaces[existing.value].procedure else PROCEDURAL;
      var volume := Airspace(id, Some(Source(order.id, r.external, order.hash)), r.controller.value, procedure, r.payload.value);
      q := p.(changes := p.changes + [Note(r.external, if existing.Some? then Changed else Created, Some(id))]);
      if existing.Some? {
        q := q.(airspaces := q.airspaces[existing.value := volume]);
      } else {
        q := q.(airspaces := q.airspaces + [volume], nextId := q.nextId + 1);
      }
    }

    /** Work the order out on a copy of the role's draft. */
    method Prepare(role: nat, expected: nat, order: Order, check: Check) returns (prepared: Prepared)
      ensures prepared == AirspaceImport.Prepare(Model(), role, expected, order, check)
    {
      if role !in participants {
        return Rejected(NotParticipant);
      }
      var draft := Draft(Model(), role);
      if draft.None? {
        return Rejected(NoProduct);
      }
      var plan := draft.value;
      if plan.revision != expected {
        return Rejected(RevisionConflict);
      }
      var p := Progress(plan.airspaces, [], [], nextId, false);
      for i := 0 to |order.records|
        invariant !p.failed
        invariant ImportRecords(p, order, plan.missions, order.records[i..])
               == Import(plan.airspaces, nextId, order, plan.missions)
      {
        assert order.records[i..][0] == order.records[i] && order.records[i..][1..] == order.records[i + 1..];
        p := Take(p, order, plan.missions, order.records[i]);
        if p.failed {
          return Rejected(Unshapable);
        }
      }
      var sound := check(p.airspaces, plan.missions);
      return Prepared(plan.(airspaces := p.airspaces), p.changes, p.blocked, !order.issues && sound && p.blocked == [], p.nextId);
    }

    /** Replace the draft by the prepared plan if nothing is left to object to and something changed. */
    method Apply(role: nat, expected: nat, order: Order, check: Check) returns (response: Response)
      modifies this`drafts, this`nextId
      ensures (Model(), response) == AirspaceImport.Apply(old(Model()), role, expected, order, check)
    {
      var prepared := Prepare(role, expected, order, check);
      if prepared.Rejected? {
        return Refused(prepared.reason);
      }
      if !prepared.valid {
        return Refused(Unresolved);
      }
      if Alters(prepared.changes) {
        var plan := prepared.plan.(revision := prepared.plan.revision + 1, published := None);
        drafts, nextId := drafts[role := plan], prepared.nextId;
      }
      return Applied;
    }
  }
}
