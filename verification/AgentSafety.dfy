/** What every step of external control keeps, over any run. */
module AgentSafety {
  import opened Ordered
  import opened OrderTraffic
  import opened Agents

  ghost predicate Spaced(ticks: seq<nat>) {
    forall i, j :: 0 <= i < j < |ticks| ==> ticks[j] >= ticks[i] + WORK_INTERVAL_TICKS
  }

  ghost predicate ConnectionOk(s: State, r: nat)
    requires r in s.connections
  {
    var c := s.connections[r];
    && c.timeoutMs >= 1
    && (c.work.Some? ==>
          c.mode == External && c.work.value.generation == c.generation && c.work.value.id < s.nextId
          && c.work.value.deadlineMs <= U64_MAX && forall r :: r in c.work.value.requests ==> r < s.nextId)
    && (c.mode != Human ==> r in s.roles && s.roles[r].aiControlled && c.generation <= s.roles[r].generation)
    && Spaced(c.issued)
    && c.lastWorkTick == (if c.issued == [] then None else Some(c.issued[|c.issued| - 1]))
    && (c.lastWorkTick.Some? ==> c.lastWorkTick.value <= s.tick)
  }

  ghost predicate ConnectionsOk(s: State) {
    forall r :: r in s.connections ==> ConnectionOk(s, r)
  }

  /** No two roles are asked under one observation identifier. */
  ghost predicate WorkDistinct(s: State) {
    forall q, r :: q in s.connections && r in s.connections && q != r ==>
      (s.connections[q].work.Some? && s.connections[r].work.Some? ==>
         s.connections[q].work.value.id != s.connections[r].work.value.id)
  }

  /** What was carried out is what is stored, under the generation then current. */
  ghost predicate AppliedStored(s: State) {
    && (forall i :: 0 <= i < |s.applied| ==>
          var a := s.applied[i];
          && a.decision in s.decisions
          && s.decisions[a.decision].role == a.role
          && s.decisions[a.decision].decision.observation == a.observation
          && s.decisions[a.decision].decision.generation == a.generation == a.assignment
          && a.observation < s.nextId)
    && (forall d :: d in s.decisions ==> exists i :: 0 <= i < |s.applied| && s.applied[i].decision == d)
  }

  /** No decision is carried out twice and no observation is answered twice. */
  ghost predicate AppliedOnce(s: State) {
    forall i, j :: 0 <= i < j < |s.applied| ==>
      s.applied[i].decision != s.applied[j].decision && s.applied[i].observation != s.applied[j].observation
  }

  /** An observation still open has not been answered. */
  ghost predicate OpenUnanswered(s: State) {
    forall r, i :: r in s.connections && 0 <= i < |s.applied| ==>
      (s.connections[r].work.Some? ==> s.applied[i].observation != s.connections[r].work.value.id)
  }

  ghost predicate AppliedOk(s: State) {
    AppliedStored(s) && AppliedOnce(s) && OpenUnanswered(s)
  }

  /** Each order of an external decision is one of its accepted actions, submitted once. */
  ghost predicate SubmissionOk(s: State, i: int)
    requires 0 <= i < |s.submissions|
  {
    var sub := s.submissions[i];
    sub.external ==>
      && sub.intent.Named? && sub.intent.namespace in s.decisions
      && (var stored := s.decisions[sub.intent.namespace];
          && sub.intent.index < |stored.decision.actions| == |stored.result|
          && stored.role == sub.role
          && stored.decision.actions[sub.intent.index] == Order(sub.unit, sub.kind)
          && stored.result[sub.intent.index].Accepted?)
  }

  ghost predicate SubmissionsOk(s: State) {
    forall i :: 0 <= i < |s.submissions| ==> SubmissionOk(s, i)
  }

  /** An order handed over keeps its identifier: it is recorded, or issued. */
  ghost predicate NumberedOk(s: State, intent: IntentId) {
    if intent.Named? then intent in s.placed else intent.id < s.nextId
  }

  /** No two orders share an identifier, whoever gave them; identifiers are recorded under a decision carried
      out or an observation the server issued. */
  ghost predicate IdsOk(s: State) {
    && (forall i, j :: 0 <= i < j < |s.submissions| ==> s.submissions[i].intent != s.submissions[j].intent)
    && (forall i :: 0 <= i < |s.submissions| ==> NumberedOk(s, s.submissions[i].intent))
    && (forall id :: id in s.placed ==> id.Named? && (id.namespace in s.decisions || id.namespace < s.nextId))
  }

  ghost predicate Inv(s: State) {
    && ConnectionsOk(s) && WorkDistinct(s) && AppliedOk(s) && SubmissionsOk(s) && IdsOk(s)
    && Numbered(s.traffic, s.nextId) && |s.history| <= HISTORY
  }

  lemma InvalidateKeepsInv(s: State)
    requires Inv(s)
    ensures Inv(InvalidateWork(s))
  {
    var t := InvalidateWork(s);
    forall r | r in t.connections ensures ConnectionOk(t, r) {
      assert ConnectionOk(s, r);
    }
    SameSubmissions(s, t);
  }

  /** No work is open in t that was not open in s. */
  ghost predicate NoNewWork(s: State, t: State) {
    forall r :: r in t.connections && t.connections[r].work.Some? ==>
      r in s.connections && s.connections[r].work.Some?
      && s.connections[r].work.value.id == t.connections[r].work.value.id
  }

  /** Steps that issue nothing and carry out no decision. */
  lemma ConnectionChangeKeepsInv(s: State, t: State)
    requires Inv(s)
    requires t.decisions == s.decisions && t.applied == s.applied && t.submissions == s.submissions && t.placed == s.placed
    requires t.nextId >= s.nextId && Numbered(t.traffic, t.nextId) && |t.history| <= HISTORY
    requires ConnectionsOk(t) && NoNewWork(s, t)
    ensures Inv(t)
  {
    SameSubmissions(s, t);
  }

  lemma OtherConnectionOk(s: State, t: State, r: nat)
    requires r in s.connections && ConnectionOk(s, r)
    requires r in t.connections && t.connections[r] == s.connections[r] && t.nextId >= s.nextId && t.tick == s.tick
    requires r in s.roles ==> r in t.roles && t.roles[r] == s.roles[r]
    ensures ConnectionOk(t, r)
  {}

  lemma NewConnectionOk(t: State, r: nat, mode: Mode, token: Option<nat>, timeoutMs: nat)
    requires r in t.roles && t.roles[r].aiControlled == (mode != Human) && timeoutMs >= 1
    requires r in t.connections && t.connections[r] == NewConnection(mode, t.roles[r].generation, token, timeoutMs)
    ensures ConnectionOk(t, r)
  {}

  lemma ConfiguredConnections(s: State, role: nat, mode: Mode, timeoutMs: nat, token: nat)
    requires ConnectionsOk(s)
    ensures ConnectionsOk(Configure(s, role, mode, timeoutMs, token).0)
    ensures NoNewWork(s, Configure(s, role, mode, timeoutMs, token).0)
  {
    var t := Configure(s, role, mode, timeoutMs, token).0;
    if t != s {
      NewConnectionOk(t, role, mode, t.connections[role].token, timeoutMs);
      forall r | r in t.connections && r != role ensures ConnectionOk(t, r) {
        OtherConnectionOk(s, t, r);
      }
    }
  }

  lemma ConfigureKeepsInv(s: State, role: nat, mode: Mode, timeoutMs: nat, token: nat)
    requires Inv(s)
    ensures Inv(Configure(s, role, mode, timeoutMs, token).0)
  {
    ConfiguredConnections(s, role, mode, timeoutMs, token);
    ConnectionChangeKeepsInv(s, Configure(s, role, mode, timeoutMs, token).0);
  }

  lemma EditedConnections(s: State, definitions: map<nat, RoleDefinition>)
    requires ConnectionsOk(s) && Enabled(s, EditStep(definitions))
    ensures ConnectionsOk(EditAuthority(s, definitions)) && NoNewWork(s, EditAuthority(s, definitions))
  {
    var t := EditAuthority(s, definitions);
    forall r | r in t.connections ensures ConnectionOk(t, r) && t.connections[r].work.None? {
      EditedConnectionOk(s, definitions, r);
    }
  }

  lemma EditedConnectionOk(s: State, definitions: map<nat, RoleDefinition>, r: nat)
    requires r in s.connections && ConnectionOk(s, r) && Enabled(s, EditStep(definitions))
    ensures ConnectionOk(EditAuthority(s, definitions), r) && EditAuthority(s, definitions).connections[r].work.None?
  {}

  lemma EditKeepsInv(s: State, definitions: map<nat, RoleDefinition>)
    requires Inv(s) && Enabled(s, EditStep(definitions))
    ensures Inv(EditAuthority(s, definitions))
  {
    EditedConnections(s, definitions);
    ConnectionChangeKeepsInv(s, EditAuthority(s, definitions));
  }

  lemma PlannedConnectionOk(s: State, t: State, r: nat)
    requires r in s.connections && ConnectionOk(s, r) && r in t.connections && PlannerKeeps(s.connections[r], t.connections[r])
    requires t.roles == s.roles && t.tick == s.tick && t.nextId >= s.nextId
    ensures ConnectionOk(t, r)
  {}

  lemma AdoptedConnectionOk(t: State, r: nat)
    requires r in t.connections && r in t.roles && t.roles[r].aiControlled
    requires PlannerKeeps(NewConnection(Deterministic, t.roles[r].generation, None, 30_000), t.connections[r])
    ensures ConnectionOk(t, r) && t.connections[r].work.None?
  {}

  lemma PlannedConnections(s: State, t: State)
    requires ConnectionsOk(s) && PlannerFrame(s, t)
    ensures ConnectionsOk(t) && NoNewWork(s, t)
  {
    forall r | r in t.connections ensures ConnectionOk(t, r) && (r !in s.connections ==> t.connections[r].work.None?) {
      if r in s.connections {
        PlannedConnectionOk(s, t, r);
      } else {
        AdoptedConnectionOk(t, r);
      }
    }
  }

  lemma PlannedSubmissions(s: State, t: State)
    requires SubmissionsOk(s) && IdsOk(s) && PlannerFrame(s, t)
    ensures SubmissionsOk(t) && IdsOk(t)
  {
    forall i | 0 <= i < |t.submissions| ensures SubmissionOk(t, i) && NumberedOk(t, t.submissions[i].intent) {
      if i < |s.submissions| {
        assert SubmissionOk(s, i) && NumberedOk(s, s.submissions[i].intent);
      } else {
        assert NewlyNumbered(s, t, t.submissions[i].intent);
      }
    }
    forall i, j | 0 <= i < j < |t.submissions| ensures t.submissions[i].intent != t.submissions[j].intent {
      if i < |s.submissions| <= j {
        assert NumberedOk(s, s.submissions[i].intent) && NewlyNumbered(s, t, t.submissions[j].intent);
      }
    }
  }

  lemma PlannerKeepsInv(s: State, t: State)
    requires Inv(s) && PlannerFrame(s, t)
    ensures Inv(t)
  {
    PlannedConnections(s, t);
    PlannedSubmissions(s, t);
  }

  lemma ExpireKeepsConnection(s: State, role: nat, now: nat, r: nat)
    requires ConnectionsOk(s) && role in s.connections && r in s.connections
    ensures ConnectionOk(Expire(s, role, now), r)
  {
    assert ConnectionOk(s, r);
  }

  lemma ExpireKeepsInv(s: State, role: nat, now: nat)
    requires Inv(s) && role in s.connections
    ensures Inv(Expire(s, role, now)) && Expire(s, role, now).connections.Keys == s.connections.Keys
  {
    var t := Expire(s, role, now);
    forall r | r in t.connections ensures ConnectionOk(t, r) {
      ExpireKeepsConnection(s, role, now, r);
    }
    ConnectionChangeKeepsInv(s, t);
  }

  lemma IssuedConnectionOk(s: State, t: State, role: nat, o: Observation)
    requires role in s.connections && ConnectionOk(s, role) && s.connections[role].mode == External
    requires s.connections[role].lastWorkTick.None?
             || SaturatingSub(s.tick, s.connections[role].lastWorkTick.value) >= WORK_INTERVAL_TICKS
    requires o.id == s.nextId && o.generation == s.connections[role].generation && o.deadlineMs <= U64_MAX
    requires forall r :: r in o.requests ==> r < s.nextId
    requires t == s.(connections := s.connections[role := s.connections[role].(
                       work := Some(o), lastWorkTick := Some(s.tick), issued := s.connections[role].issued + [s.tick])],
                     nextId := s.nextId + 1)
    ensures ConnectionOk(t, role)
  {
    var before, after := s.connections[role].issued, t.connections[role].issued;
    forall i, j | 0 <= i < j < |after| ensures after[j] >= after[i] + WORK_INTERVAL_TICKS {
      if j == |before| && i < |before| - 1 {
        assert before[|before| - 1] >= before[i] + WORK_INTERVAL_TICKS;
      }
    }
  }

  lemma IssuedConnections(s: State, role: nat, now: nat, views: map<nat, View>)
    requires ConnectionsOk(s) && role in s.connections && s.connections[role].mode == External
    requires Numbered(s.traffic, s.nextId)
    ensures ConnectionsOk(Issue(s, role, now, views))
  {
    var t := Issue(s, role, now, views);
    assert ConnectionOk(s, role);
    if t != s {
      IssuedConnectionOk(s, t, role, t.connections[role].work.value);
      forall r | r in t.connections && r != role ensures ConnectionOk(t, r) {
        OtherConnectionOk(s, t, r);
      }
    }
  }

  lemma OpenWorkIsOld(s: State)
    requires ConnectionsOk(s)
    ensures forall r :: r in s.connections && s.connections[r].work.Some? ==> s.connections[r].work.value.id < s.nextId
  {
    forall r | r in s.connections && s.connections[r].work.Some? ensures s.connections[r].work.value.id < s.nextId {
      assert ConnectionOk(s, r);
    }
  }

  lemma IssueKeepsDistinct(s: State, role: nat, now: nat, views: map<nat, View>)
    requires ConnectionsOk(s) && WorkDistinct(s) && role in s.connections
    ensures WorkDistinct(Issue(s, role, now, views))
  {
    OpenWorkIsOld(s);
  }

  lemma IssueKeepsApplied(s: State, role: nat, now: nat, views: map<nat, View>)
    requires AppliedOk(s) && role in s.connections
    ensures AppliedOk(Issue(s, role, now, views))
  {
    var t := Issue(s, role, now, views);
    forall r, i | r in t.connections && 0 <= i < |t.applied| && t.connections[r].work.Some?
      ensures t.applied[i].observation != t.connections[r].work.value.id
    {
      assert t.connections[r] == s.connections[r] || t.connections[r].work.value.id == s.nextId;
    }
  }

  lemma SameSubmissions(s: State, t: State)
    requires SubmissionsOk(s) && IdsOk(s) && t.submissions == s.submissions && t.decisions == s.decisions
    requires t.placed == s.placed && t.nextId >= s.nextId
    ensures SubmissionsOk(t) && IdsOk(t)
  {
    forall i | 0 <= i < |t.submissions| ensures SubmissionOk(t, i) && NumberedOk(t, t.submissions[i].intent) {
      assert SubmissionOk(s, i) && NumberedOk(s, s.submissions[i].intent);
    }
  }

  lemma IssueKeepsInv(s: State, role: nat, now: nat, views: map<nat, View>)
    requires Inv(s) && role in s.connections && s.connections[role].mode == External
    ensures Inv(Issue(s, role, now, views))
  {
    IssuedConnections(s, role, now, views);
    IssueKeepsDistinct(s, role, now, views);
    IssueKeepsApplied(s, role, now, views);
    SameSubmissions(s, Issue(s, role, now, views));
  }

  lemma AdvanceRoleKeepsInv(s: State, role: nat, now: nat, views: map<nat, View>)
    requires Inv(s) && role in s.connections && s.connections[role].mode == External
    ensures Inv(AdvanceRole(s, role, now, views))
  {
    ExpireKeepsInv(s, role, now);
    IssueKeepsInv(Expire(s, role, now), role, now, views);
  }

  lemma {:induction false} AdvanceRolesKeepsInv(s: State, roles: seq<nat>, now: nat, views: map<nat, View>)
    requires Inv(s)
    requires forall r :: r in roles ==> r in s.connections && s.connections[r].mode == External
    ensures Inv(AdvanceRoles(s, roles, now, views))
    decreases |roles|
  {
    if roles != [] {
      AdvanceRoleKeepsInv(s, roles[0], now, views);
      AdvanceRolesKeepsInv(AdvanceRole(s, roles[0], now, views), roles[1..], now, views);
    }
  }

  // ---- Decisions --------------------------------------------------------------------------

  /** The order of one accepted action, unless its identifier stood for it already. */
  function OrderAt(role: nat, d: Decision, outcome: Outcome, index: nat, placed: map<IntentId, Placed>): seq<Submission>
    requires index < |d.actions|
  {
    if outcome.Accepted? && d.actions[index].Order? && Named(d.id, index) !in placed
    then [Submission(Named(d.id, index), role, d.actions[index].unit, d.actions[index].kind, true)] else []
  }

  /** The orders among actions index.. that were accepted, as submitted. */
  function AcceptedOrders(role: nat, d: Decision, results: seq<Outcome>, index: nat, placed: map<IntentId, Placed>): seq<Submission>
    requires index + |results| == |d.actions|
    decreases |results|
  {
    if results == [] then []
    else OrderAt(role, d, results[0], index, placed) + AcceptedOrders(role, d, results[1..], index + 1, placed)
  }

  /** Only identifiers of this decision's actions below a bound are newly recorded. */
  ghost predicate PlacedBetween(s: State, t: State, namespace: nat, low: nat, high: nat) {
    && (forall id :: id in s.placed ==> id in t.placed && t.placed[id] == s.placed[id])
    && (forall id :: id in t.placed && id !in s.placed ==> id.Named? && id.namespace == namespace && low <= id.index < high)
  }

  ghost predicate AllPlaced(t: State, orders: seq<Submission>) {
    forall i :: 0 <= i < |orders| ==> orders[i].intent in t.placed
  }

  /** What carrying out actions may touch: the role's goal assignments and receipts, new orders, what waits,
      and the game's status if a write fails. */
  ghost predicate ActFrame(s: State, t: State, role: nat)
    requires role in s.connections
  {
    && t.connections.Keys == s.connections.Keys
    && t == s.(status := t.status, nextId := t.nextId, traffic := t.traffic, connections := t.connections,
               placed := t.placed, submissions := t.submissions)
    && (t.status == s.status || t.status == Paused)
    && s.nextId <= t.nextId && (Numbered(s.traffic, s.nextId) ==> Numbered(t.traffic, t.nextId))
    && (forall r :: r in s.connections && r != role ==> t.connections[r] == s.connections[r])
    && t.connections[role] == s.connections[role].(
         assignments := t.connections[role].assignments, receipts := t.connections[role].receipts)
    && s.submissions <= t.submissions
  }

  /** The identifier stands for this very order, accepted; or it is free and the order passes in a running
      game. */
  ghost predicate Placeable(s: State, order: Submission, answer: Answer) {
    if order.intent in s.placed then
      var first := s.placed[order.intent];
      first.role == order.role && first.unit == order.unit && first.kind == order.kind && first.tick == s.tick && first.accepted
    else s.status == Running && !s.complete && answer.wellFormed && Passes(SeatsOf(s), answer)
  }

  /** An accepted action referred only to what its observation showed and stayed in the role's scope. */
  ghost predicate InScope(s: State, role: nat, o: Observation, a: Action, intent: IntentId, answer: Answer)
    requires role in s.roles
  {
    (match a
        case Order(unit, kind) =>
          && (kind.Engage? ==> kind.track in o.tracks)
          && unit in s.roles[role].units && !Busy(s.traffic, unit)
          && Placeable(s, Submission(intent, role, unit, kind, true), answer)
        case SelectGoal(goal, units) => Goal(goal, role) in s.goals && forall unit :: unit in units ==> unit in s.roles[role].units
        case AuthorityDecision(request, _) => request in o.requests && Decidable(s.traffic, role, request))
  }

  /** The first accepted order under an identifier is handed over; nothing else is. */
  lemma SubmitShaped(s: State, order: Submission, answer: Answer)
    requires order.intent.Named?
    ensures var (t, refusal) := Submit(s, order, answer);
            && (refusal.None? <==> Placeable(s, order, answer))
            && (t.status == s.status || t.status == Paused)
            && s.nextId <= t.nextId && (Numbered(s.traffic, s.nextId) ==> Numbered(t.traffic, t.nextId))
            && PlacedBetween(s, t, order.intent.namespace, order.intent.index, order.intent.index + 1)
            && t.submissions == s.submissions + (if refusal.None? && order.intent !in s.placed then [order] else [])
            && (refusal.None? ==> order.intent in t.placed)
  {
    DispatchNumbers(s.traffic, SeatsOf(s), s.nextId, order.intent, order.unit, order.kind.Move?, answer);
  }

  /** What one action may touch: its role's goals and receipts, its own identifier, and its order. */
  ghost predicate ActShape(s: State, t: State, role: nat, a: Action, intent: IntentId, external: bool, accepted: bool)
    requires role in s.connections && intent.Named?
  {
    && ActFrame(s, t, role) && PlacedBetween(s, t, intent.namespace, intent.index, intent.index + 1)
    && t.submissions == s.submissions + (if accepted && a.Order? && intent !in s.placed
                                         then [Submission(intent, role, a.unit, a.kind, external)] else [])
    && (accepted && a.Order? ==> intent in t.placed)
  }

  lemma OrderShaped(s: State, role: nat, a: Action, namespace: nat, index: nat, external: bool, answer: Answer)
    requires role in s.connections && role in s.roles && a.Order?
    ensures var (t, outcome) := Act(s, role, a, namespace, index, external, answer);
            && ActShape(s, t, role, a, Named(namespace, index), external, outcome.Accepted?)
            && (outcome.Accepted? <==>
                  a.unit in s.roles[role].units && !Busy(s.traffic, a.unit)
                  && Placeable(s, Submission(Named(namespace, index), role, a.unit, a.kind, external), answer))
  {
    SubmitShaped(s, Submission(Named(namespace, index), role, a.unit, a.kind, external), answer);
  }

  lemma OtherActShaped(s: State, role: nat, a: Action, namespace: nat, index: nat, external: bool, answer: Answer)
    requires role in s.connections && role in s.roles && !a.Order?
    ensures var (t, outcome) := Act(s, role, a, namespace, index, external, answer);
            && ActShape(s, t, role, a, Named(namespace, index), external, outcome.Accepted?)
            && (a.SelectGoal? ==>
                  (outcome.Accepted? <==>
                     Goal(a.goal, role) in s.goals && forall unit :: unit in a.units ==> unit in s.roles[role].units))
            && (a.AuthorityDecision? ==> (outcome.Accepted? <==> Decidable(s.traffic, role, a.request)))
  {
    if a.AuthorityDecision? {
      ResolveNumbers(s.traffic, SeatsOf(s), s.nextId, role, a.request, a.approve, answer.sending);
    }
  }

  /** What one action of a decision adds. */
  ghost predicate OneDecided(s: State, t: State, role: nat, d: Decision, outcome: Outcome, index: nat)
    requires role in s.connections && index < |d.actions|
  {
    && ActFrame(s, t, role) && PlacedBetween(s, t, d.id, index, index + 1)
    && t.submissions == s.submissions + OrderAt(role, d, outcome, index, s.placed)
    && AllPlaced(t, OrderAt(role, d, outcome, index, s.placed))
  }

  lemma ShapeIsOne(s: State, t: State, u: State, role: nat, d: Decision, outcome: Outcome, index: nat)
    requires role in s.connections && role in t.connections && role in u.connections && index < |d.actions|
    requires ActShape(s, t, role, d.actions[index], Named(d.id, index), true, outcome.Accepted?)
    requires u == t || u == t.(connections := t.connections[role := t.connections[role].(
                                 assignments := u.connections[role].assignments)])
    ensures OneDecided(s, u, role, d, outcome, index)
  {}

  lemma DecideOneFrame(s: State, role: nat, o: Observation, d: Decision, index: nat, answer: Answer)
    requires role in s.connections && role in s.roles && index < |d.actions|
    ensures var (t, outcome) := DecideOne(s, role, o, d.actions[index], d.id, index, answer);
            && OneDecided(s, t, role, d, outcome, index)
            && (outcome.Accepted? <==> InScope(s, role, o, d.actions[index], Named(d.id, index), answer))
  {
    var a := d.actions[index];
    var (u, outcome) := DecideOne(s, role, o, a, d.id, index, answer);
    if !Visible(o, a) {
      assert u == s;
    } else {
      var t := Act(s, role, a, d.id, index, true, answer).0;
      if a.Order? {
        OrderShaped(s, role, a, d.id, index, true, answer);
      } else {
        OtherActShaped(s, role, a, d.id, index, true, answer);
      }
      ShapeIsOne(s, t, u, role, d, outcome, index);
    }
  }

  /** What the actions from index on add. */
  ghost predicate AllDecided(s: State, t: State, role: nat, d: Decision, results: seq<Outcome>, index: nat)
    requires role in s.connections && index + |results| == |d.actions|
  {
    && ActFrame(s, t, role) && PlacedBetween(s, t, d.id, index, |d.actions|)
    && t.submissions == s.submissions + AcceptedOrders(role, d, results, index, s.placed)
    && AllPlaced(t, AcceptedOrders(role, d, results, index, s.placed))
  }

  lemma ActFrameTransitive(s: State, t: State, u: State, role: nat)
    requires role in s.connections && ActFrame(s, t, role) && ActFrame(t, u, role)
    ensures ActFrame(s, u, role)
  {}

  lemma PlacedTransitive(s: State, t: State, u: State, namespace: nat, index: nat, high: nat)
    requires PlacedBetween(s, t, namespace, index, index + 1) && PlacedBetween(t, u, namespace, index + 1, high) && index < high
    ensures PlacedBetween(s, u, namespace, index, high)
  {}

  /** Later actions have identifiers of their own, so an earlier one does not use them up. */
  lemma {:induction false} LaterOrdersSame(s: State, t: State, role: nat, d: Decision, results: seq<Outcome>, low: nat, index: nat)
    requires PlacedBetween(s, t, d.id, low, low + 1) && low < index && index + |results| == |d.actions|
    ensures AcceptedOrders(role, d, results, index, t.placed) == AcceptedOrders(role, d, results, index, s.placed)
    decreases |results|
  {
    if results != [] {
      LaterOrdersSame(s, t, role, d, results[1..], low, index + 1);
      assert Named(d.id, index) in t.placed <==> Named(d.id, index) in s.placed;
    }
  }

  lemma AcceptedOrdersUnfold(role: nat, d: Decision, outcome: Outcome, rest: seq<Outcome>, index: nat, placed: map<IntentId, Placed>)
    requires index + 1 + |rest| == |d.actions|
    ensures AcceptedOrders(role, d, [outcome] + rest, index, placed)
         == OrderAt(role, d, outcome, index, placed) + AcceptedOrders(role, d, rest, index + 1, placed)
  {
    assert ([outcome] + rest)[1..] == rest;
  }

  lemma DecideChain(s: State, t: State, u: State, role: nat, d: Decision, outcome: Outcome, rest: seq<Outcome>, index: nat)
    requires role in s.connections && role in t.connections && index + 1 + |rest| == |d.actions|
    requires OneDecided(s, t, role, d, outcome, index) && AllDecided(t, u, role, d, rest, index + 1)
    ensures AllDecided(s, u, role, d, [outcome] + rest, index)
  {
    ActFrameTransitive(s, t, u, role);
    PlacedTransitive(s, t, u, d.id, index, |d.actions|);
    LaterOrdersSame(s, t, role, d, rest, index, index + 1);
    AcceptedOrdersUnfold(role, d, outcome, rest, index, s.placed);
    OrdersPlaced(t, u, OrderAt(role, d, outcome, index, s.placed), AcceptedOrders(role, d, rest, index + 1, s.placed));
  }

  lemma OrdersPlaced(t: State, u: State, first: seq<Submission>, rest: seq<Submission>)
    requires (forall id :: id in t.placed ==> id in u.placed) && AllPlaced(t, first) && AllPlaced(u, rest)
    ensures AllPlaced(u, first + rest)
  {
    forall i | 0 <= i < |first + rest| ensures (first + rest)[i].intent in u.placed {
      if i < |first| {
        assert first[i].intent in t.placed;
      }
    }
  }

  lemma DecideFirst(s: State, role: nat, o: Observation, d: Decision, index: nat, answers: seq<Answer>)
      returns (t: State, outcome: Outcome)
    requires role in s.connections && role in s.roles && index < |d.actions|
    ensures role in t.connections && role in t.roles && OneDecided(s, t, role, d, outcome, index)
    ensures var (u, rest) := DecideAll(t, role, o, d, index + 1, answers);
            DecideAll(s, role, o, d, index, answers) == (u, [outcome] + rest)
  {
    t, outcome := DecideOne(s, role, o, d.actions[index], d.id, index, AnswerAt(answers, index)).0,
                  DecideOne(s, role, o, d.actions[index], d.id, index, AnswerAt(answers, index)).1;
    DecideOneFrame(s, role, o, d, index, AnswerAt(answers, index));
  }

  lemma NothingDecided(s: State, role: nat, d: Decision)
    requires role in s.connections
    ensures AllDecided(s, s, role, d, [], |d.actions|)
  {}

  lemma {:induction false} DecideAllFrame(s: State, role: nat, o: Observation, d: Decision, index: nat, answers: seq<Answer>)
    requires role in s.connections && role in s.roles && index <= |d.actions|
    ensures var (t, results) := DecideAll(s, role, o, d, index, answers); AllDecided(s, t, role, d, results, index)
    decreases |d.actions| - index
  {
    if index == |d.actions| {
      NothingDecided(s, role, d);
    } else {
      var t, outcome := DecideFirst(s, role, o, d, index, answers);
      DecideAllFrame(t, role, o, d, index + 1, answers);
      var (u, rest) := DecideAll(t, role, o, d, index + 1, answers);
      DecideChain(s, t, u, role, d, outcome, rest, index);
    }
  }

  ghost predicate OrderOf(role: nat, d: Decision, results: seq<Outcome>, index: nat, order: Submission) {
    && order.external && order.role == role && order.intent.Named? && order.intent.namespace == d.id
    && index <= order.intent.index < index + |results| == |d.actions|
    && d.actions[order.intent.index] == Order(order.unit, order.kind)
    && results[order.intent.index - index].Accepted?
  }

  ghost predicate OrdersOf(role: nat, d: Decision, results: seq<Outcome>, index: nat, orders: seq<Submission>) {
    && (forall i :: 0 <= i < |orders| ==> OrderOf(role, d, results, index, orders[i]))
    && (forall i, j :: 0 <= i < j < |orders| ==> orders[i].intent.index < orders[j].intent.index)
  }

  lemma EarlierOrders(role: nat, d: Decision, results: seq<Outcome>, index: nat, rest: seq<Submission>)
    requires results != [] && OrdersOf(role, d, results[1..], index + 1, rest)
    ensures OrdersOf(role, d, results, index, rest)
    ensures forall i :: 0 <= i < |rest| ==> rest[i].intent.index > index
  {
    forall i | 0 <= i < |rest| ensures OrderOf(role, d, results, index, rest[i]) && rest[i].intent.index > index {
      assert OrderOf(role, d, results[1..], index + 1, rest[i]);
    }
  }

  lemma {:induction false} AcceptedOrdersOk(role: nat, d: Decision, results: seq<Outcome>, index: nat, placed: map<IntentId, Placed>)
    requires index + |results| == |d.actions|
    ensures OrdersOf(role, d, results, index, AcceptedOrders(role, d, results, index, placed))
    ensures forall order :: order in AcceptedOrders(role, d, results, index, placed) ==> order.intent !in placed
    decreases |results|
  {
    if results != [] {
      AcceptedOrdersOk(role, d, results[1..], index + 1, placed);
      EarlierOrders(role, d, results, index, AcceptedOrders(role, d, results[1..], index + 1, placed));
    }
  }

  /** The one way a decision is carried out. */
  ghost predicate Acceptable(s: State, role: nat, d: Decision, now: nat) {
    && role in s.connections && role in s.roles
    && d.protocol == PROTOCOL_VERSION && d.generation == s.connections[role].generation
    && d.id !in s.decisions && Open(s, role, d.observation, now) && !TooLarge(d)
  }

  ghost function Decided(s: State, role: nat, d: Decision, now: nat, answers: seq<Answer>): State
    requires Acceptable(s, role, d, now)
  {
    var (t, result) := DecideAll(s, role, s.connections[role].work.value, d, 0, answers);
    t.(connections := t.connections[role := t.connections[role].(work := None, fallback := false)],
       history := Noted(t.history, Note(role, Answered)),
       decisions := t.decisions[d.id := Stored(role, d, result)],
       applied := t.applied + [Applied(d.id, role, d.observation, d.generation, s.connections[role].generation, now)])
  }

  /** A decision is carried out if and only if its credential controls a role, its protocol and
      generation are current, its identifier is new, the game runs, the role's open observation is
      the one it answers with time left, and it is within the size limits. Anything else changes
      nothing: an identical replay gets the stored result, and every other case a refusal. */
  lemma DecideExactly(s: State, token: nat, d: Decision, now: nat, answers: seq<Answer>)
    requires Inv(s)
    ensures forall r :: r in s.connections && s.connections[r].mode == External ==> r in s.roles
    ensures var (t, response) := Decide(s, token, d, now, answers);
            var held := Authenticate(s, token);
            if held.Some? && Acceptable(s, held.value, d, now)
            then t == Decided(s, held.value, d, now, answers)
                 && response == Replied(t.decisions[d.id].result) && |t.applied| == |s.applied| + 1
            else t == s
                 && (response.Replied? <==>
                       held.Some? && d.protocol == PROTOCOL_VERSION && d.generation == s.connections[held.value].generation
                       && d.id in s.decisions && s.decisions[d.id].role == held.value && s.decisions[d.id].decision == d)
                 && (response.Replied? ==> response.result == s.decisions[d.id].result)
  {
    forall r | r in s.connections && s.connections[r].mode == External ensures r in s.roles {
      assert ConnectionOk(s, r);
    }
    var held := Authenticate(s, token);
    if held.Some? && Acceptable(s, held.value, d, now) {
      DecideAllFrame(s, held.value, s.connections[held.value].work.value, d, 0, answers);
    }
  }

  /** The observation is answered, and only goals and receipts of the role's connection change besides. */
  ghost predicate Answers(s: State, t: State, role: nat)
    requires role in s.connections
  {
    && t.roles == s.roles && t.tick == s.tick && s.nextId <= t.nextId && t.connections.Keys == s.connections.Keys
    && (Numbered(s.traffic, s.nextId) ==> Numbered(t.traffic, t.nextId))
    && (forall r :: r in s.connections && r != role ==> t.connections[r] == s.connections[r])
    && t.connections[role] == s.connections[role].(
         work := None, fallback := false,
         assignments := t.connections[role].assignments, receipts := t.connections[role].receipts)
  }

  lemma AnsweredConnections(s: State, t: State, role: nat)
    requires role in s.connections && ConnectionsOk(s) && Answers(s, t, role)
    ensures ConnectionsOk(t)
  {
    forall r | r in t.connections ensures ConnectionOk(t, r) {
      assert ConnectionOk(s, r);
    }
  }

  /** What a carried-out decision does to everything but its own orders. */
  lemma DecidedShape(s: State, role: nat, d: Decision, now: nat, answers: seq<Answer>)
    requires Acceptable(s, role, d, now)
    ensures var t := Decided(s, role, d, now, answers);
            && Answers(s, t, role) && t.history == Noted(s.history, Note(role, Answered))
            && t.decisions == s.decisions[d.id := Stored(role, d, t.decisions[d.id].result)]
            && t.applied == s.applied + [Applied(d.id, role, d.observation, d.generation, s.connections[role].generation, now)]
  {
    DecideAllFrame(s, role, s.connections[role].work.value, d, 0, answers);
  }

  lemma DecidedStored(s: State, t: State, a: Applied, d: Decision, result: seq<Outcome>)
    requires AppliedStored(s) && d.id !in s.decisions
    requires t.applied == s.applied + [a] && t.nextId >= s.nextId
    requires t.decisions == s.decisions[d.id := Stored(a.role, d, result)]
    requires a.decision == d.id && a.observation == d.observation < s.nextId && d.generation == a.generation == a.assignment
    ensures AppliedStored(t)
  {
    forall other | other in t.decisions ensures exists i :: 0 <= i < |t.applied| && t.applied[i].decision == other {
      if other == d.id {
        assert t.applied[|s.applied|].decision == d.id;
      } else {
        var i :| 0 <= i < |s.applied| && s.applied[i].decision == other;
        assert t.applied[i] == s.applied[i];
      }
    }
  }

  lemma DecidedOnce(s: State, t: State, role: nat, a: Applied)
    requires AppliedStored(s) && AppliedOnce(s) && OpenUnanswered(s) && WorkDistinct(s)
    requires role in s.connections && s.connections[role].work.Some? && s.connections[role].work.value.id == a.observation
    requires a.decision !in s.decisions && t.applied == s.applied + [a]
    requires t.connections.Keys == s.connections.Keys && t.connections[role].work.None?
    requires forall r :: r in s.connections && r != role ==> t.connections[r] == s.connections[r]
    ensures AppliedOnce(t) && OpenUnanswered(t) && WorkDistinct(t)
  {}

  lemma DecidedApplied(s: State, role: nat, d: Decision, now: nat, answers: seq<Answer>)
    requires ConnectionsOk(s) && WorkDistinct(s) && AppliedOk(s) && Acceptable(s, role, d, now)
    ensures AppliedOk(Decided(s, role, d, now, answers)) && WorkDistinct(Decided(s, role, d, now, answers))
  {
    var t := Decided(s, role, d, now, answers);
    DecidedShape(s, role, d, now, answers);
    OpenWorkIsOld(s);
    var a := t.applied[|s.applied|];
    DecidedStored(s, t, a, d, t.decisions[d.id].result);
    DecidedOnce(s, t, role, a);
  }

  lemma DecidedSubmissions(s: State, role: nat, d: Decision, now: nat, answers: seq<Answer>)
    requires SubmissionsOk(s) && Acceptable(s, role, d, now)
    ensures SubmissionsOk(Decided(s, role, d, now, answers))
  {
    var t := Decided(s, role, d, now, answers);
    DecideAllFrame(s, role, s.connections[role].work.value, d, 0, answers);
    var results := t.decisions[d.id].result;
    AcceptedOrdersOk(role, d, results, 0, s.placed);
    forall i | 0 <= i < |t.submissions| ensures SubmissionOk(t, i) {
      if i < |s.submissions| { assert SubmissionOk(s, i); }
    }
  }

  lemma DecidedIds(s: State, role: nat, d: Decision, now: nat, answers: seq<Answer>)
    requires IdsOk(s) && Acceptable(s, role, d, now)
    ensures IdsOk(Decided(s, role, d, now, answers))
  {
    var t := Decided(s, role, d, now, answers);
    DecideAllFrame(s, role, s.connections[role].work.value, d, 0, answers);
    var results := t.decisions[d.id].result;
    AcceptedOrdersOk(role, d, results, 0, s.placed);
    OrdersGetIds(s, t, AcceptedOrders(role, d, results, 0, s.placed), role, d, results);
  }

  lemma OrdersGetIds(s: State, t: State, orders: seq<Submission>, role: nat, d: Decision, results: seq<Outcome>)
    requires IdsOk(s) && t.submissions == s.submissions + orders && t.nextId >= s.nextId
    requires OrdersOf(role, d, results, 0, orders) && AllPlaced(t, orders)
    requires forall order :: order in orders ==> order.intent !in s.placed
    requires PlacedBetween(s, t, d.id, 0, |d.actions|) && d.id in t.decisions && s.decisions.Keys <= t.decisions.Keys
    ensures IdsOk(t)
  {
    var n := |s.submissions|;
    forall i | 0 <= i < |t.submissions| ensures NumberedOk(t, t.submissions[i].intent) {
      if i < n {
        assert NumberedOk(s, s.submissions[i].intent);
      } else {
        assert OrderOf(role, d, results, 0, orders[i - n]);
      }
    }
    forall i, j | 0 <= i < j < |t.submissions| ensures t.submissions[i].intent != t.submissions[j].intent {
      if j >= n {
        assert OrderOf(role, d, results, 0, orders[j - n]) && orders[j - n] in orders;
        if i < n {
          assert NumberedOk(s, s.submissions[i].intent);
        }
      }
    }
  }

  lemma DecidedConnections(s: State, role: nat, d: Decision, now: nat, answers: seq<Answer>)
    requires ConnectionsOk(s) && Acceptable(s, role, d, now)
    ensures ConnectionsOk(Decided(s, role, d, now, answers))
  {
    DecidedShape(s, role, d, now, answers);
    AnsweredConnections(s, Decided(s, role, d, now, answers), role);
  }

  lemma DecidedKeepsInv(s: State, role: nat, d: Decision, now: nat, answers: seq<Answer>)
    requires Inv(s) && Acceptable(s, role, d, now)
    ensures Inv(Decided(s, role, d, now, answers))
  {
    DecidedConnections(s, role, d, now, answers);
    DecidedShape(s, role, d, now, answers);
    DecidedApplied(s, role, d, now, answers);
    DecidedSubmissions(s, role, d, now, answers);
    DecidedIds(s, role, d, now, answers);
    DecidedHistory(s, role, d, now, answers);
  }

  lemma DecidedHistory(s: State, role: nat, d: Decision, now: nat, answers: seq<Answer>)
    requires |s.history| <= HISTORY && Acceptable(s, role, d, now)
    ensures |Decided(s, role, d, now, answers).history| <= HISTORY
  {
    DecideAllFrame(s, role, s.connections[role].work.value, d, 0, answers);
  }

  lemma DecideKeepsInv(s: State, token: nat, d: Decision, now: nat, answers: seq<Answer>)
    requires Inv(s) && Enabled(s, DecideStep(token, d, now, answers))
    ensures Inv(Decide(s, token, d, now, answers).0)
  {
    DecideExactly(s, token, d, now, answers);
    var held := Authenticate(s, token);
    if held.Some? && Acceptable(s, held.value, d, now) {
      DecidedKeepsInv(s, held.value, d, now, answers);
    }
  }

  lemma ApplyKeepsInv(s: State, step: Step)
    requires Inv(s) && Enabled(s, step)
    ensures Inv(Apply(s, step))
  {
    match step
    case ConfigureStep(role, mode, timeoutMs, token) => ConfigureKeepsInv(s, role, mode, timeoutMs, token);
    case AdvanceStep(now, views) =>
      InvalidateKeepsInv(s);
      AdvanceRolesKeepsInv(s, ExternalRoles(s), now, views);
    case DecideStep(token, decision, now, answers) => DecideKeepsInv(s, token, decision, now, answers);
    case EditStep(units) => EditKeepsInv(s, units);
    case PlannerStep(planned) => PlannerKeepsInv(s, planned);
    case SetStatus(status) =>
      InvalidateKeepsInv(s);
      StatusKeepsInv(InvalidateWork(s), InvalidateWork(s).(status := status));
    case AcquireStep(role) => LeaseKeepsInv(s, role, Acquired(s.roles[role]));
    case ReleaseStep(role) => LeaseKeepsInv(s, role, Released(s.roles[role]));
    case _ => StatusKeepsInv(s, Apply(s, step));
  }

  /** Taking or leaving a role only raises its lease generation. */
  lemma LeaseKeepsInv(s: State, role: nat, held: Role)
    requires Inv(s) && role in s.roles
    requires held.aiControlled == s.roles[role].aiControlled && held.generation >= s.roles[role].generation
    ensures Inv(s.(roles := s.roles[role := held]))
  {
    var t := s.(roles := s.roles[role := held]);
    forall r | r in t.connections ensures ConnectionOk(t, r) {
      assert ConnectionOk(s, r);
    }
    ConnectionChangeKeepsInv(s, t);
  }

  lemma StatusKeepsInv(s: State, t: State)
    requires Inv(s) && t.tick >= s.tick && t.nextId >= s.nextId && Numbered(t.traffic, t.nextId)
    requires t == s.(status := t.status, complete := t.complete, tick := t.tick, traffic := t.traffic, nextId := t.nextId)
    ensures Inv(t)
  {
    forall r | r in t.connections ensures ConnectionOk(t, r) {
      assert ConnectionOk(s, r);
    }
    SameSubmissions(s, t);
  }

  /** What no step undoes: decisions carried out, orders handed over and identifiers used. */
  ghost predicate OnlyAdds(s: State, t: State) {
    s.applied <= t.applied && s.submissions <= t.submissions && s.nextId <= t.nextId
  }

  lemma {:induction false} AdvanceRolesOnlyAdd(s: State, roles: seq<nat>, now: nat, views: map<nat, View>)
    requires forall r :: r in roles ==> r in s.connections
    ensures OnlyAdds(s, AdvanceRoles(s, roles, now, views))
    decreases |roles|
  {
    if roles != [] {
      AdvanceRolesOnlyAdd(AdvanceRole(s, roles[0], now, views), roles[1..], now, views);
    }
  }

  lemma StepOnlyAdds(s: State, step: Step)
    requires Inv(s) && Enabled(s, step)
    ensures OnlyAdds(s, Apply(s, step))
  {
    match step
    case AdvanceStep(now, views) =>
      if s.status == Running && !s.complete {
        AdvanceRolesOnlyAdd(s, ExternalRoles(s), now, views);
      }
    case DecideStep(token, d, now, answers) =>
      DecideExactly(s, token, d, now, answers);
      var held := Authenticate(s, token);
      if held.Some? && Acceptable(s, held.value, d, now) {
        DecideAllFrame(s, held.value, s.connections[held.value].work.value, d, 0, answers);
      }
    case _ =>
  }

  lemma {:induction false} RunKeepsInv(s: State, steps: seq<Step>)
    requires Inv(s) && Valid(s, steps)
    ensures Inv(Run(s, steps)) && OnlyAdds(s, Run(s, steps))
    decreases |steps|
  {
    if steps != [] {
      ApplyKeepsInv(s, steps[0]);
      StepOnlyAdds(s, steps[0]);
      RunKeepsInv(Apply(s, steps[0]), steps[1..]);
    }
  }

  lemma FreshInv(s: State)
    requires Fresh(s)
    ensures Inv(s)
  {}
}
