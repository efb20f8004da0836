/** What one planning pass promises: a single planner per unit, the most specific one, within the frame
    the external controllers rely on. */
module AiPlanningSafety {
  import opened Ordered
  import opened OrderTraffic
  import opened Agents
  import opened AiPlanning
  import opened AiPlanningFrame

  // ---- The most specific role --------------------------------------------------------------

  lemma SameOwner(s: State, t: State, role: nat, unit: nat)
    requires s.roles == t.roles
    ensures PlannerOwns(s, role, unit) == PlannerOwns(t, role, unit)
  {
    assert forall q :: Controls(s, q, unit) == Controls(t, q, unit);
    assert forall q :: q in s.roles && Controls(s, role, unit) ==> Precedes(s, role, q) == Precedes(t, role, q);
  }

  /** A unit some AI role commands has exactly one planner; other units have none. */
  lemma {:induction false} PlannerIsUnique(s: State, unit: nat)
    ensures (exists r :: Controls(s, r, unit)) <==> (exists r :: PlannerOwns(s, r, unit))
    ensures forall q, r :: PlannerOwns(s, q, unit) && PlannerOwns(s, r, unit) ==> q == r
  {
    var rivals := set r | r in s.roles && Controls(s, r, unit);
    if rivals != {} {
      assert PlannerOwns(s, First(s, rivals), unit);
    } else {
      forall r ensures !Controls(s, r, unit) {
        assert r !in rivals;
      }
    }
  }

  // ---- Policies plan only for owners -------------------------------------------------------

  /** The planner orders only the units it is given. */
  ghost predicate PlansOnlyGiven(w: World) {
    forall role, units, i ::
      0 <= i < |w.plan(role, units)| && w.plan(role, units)[i].Order? ==> w.plan(role, units)[i].unit in units
  }

  ghost predicate Owned(s: State, log: seq<Entry>, n: nat) {
    forall i :: n <= i < |log| && log[i].Gave? ==> PlannerOwns(s, log[i].order.role, log[i].order.unit)
  }

  lemma {:induction false} ActionsAreOwned(
    s: State, p: Planner, w: World, role: nat, actions: seq<Action>, observation: nat, index: nat, n: nat)
    requires role in p.game.connections && role in p.game.roles && index <= |actions|
    requires forall i :: 0 <= i < |actions| && actions[i].Order? ==> PlannerOwns(s, role, actions[i].unit)
    requires n <= |p.policyLog| && Owned(s, p.policyLog, n)
    ensures var q := PolicyActions(p, w, role, actions, observation, index);
            p.policyLog <= q.policyLog && Owned(s, q.policyLog, n) && q.patrolLog == p.patrolLog && q.attempts == p.attempts
    decreases |actions| - index
  {
    if index < |actions| {
      ActionsAreOwned(
        s, PolicyAction(p, w, role, actions[index], observation, index), w, role, actions, observation, index + 1, n);
    }
  }

  lemma PlanIsOwned(s: State, p: Planner, w: World, role: nat, given: set<nat>, observation: nat, n: nat)
    requires PlansOnlyGiven(w) && role in p.game.connections && role in p.game.roles
    requires forall unit :: unit in given ==> PlannerOwns(s, role, unit)
    requires n <= |p.policyLog| && Owned(s, p.policyLog, n)
    ensures var q := PolicyPlan(p, w, role, given, observation);
            p.policyLog <= q.policyLog && Owned(s, q.policyLog, n) && q.patrolLog == p.patrolLog && q.attempts == p.attempts
  {
    var actions := w.plan(role, given);
    forall i | 0 <= i < |actions| && actions[i].Order? ensures PlannerOwns(s, role, actions[i].unit) {
      assert actions[i].unit in given;
    }
    ActionsAreOwned(s, p, w, role, actions, observation, 0, n);
  }

  lemma TurnIsOwned(s: State, p: Planner, w: World, role: nat, taken: set<nat>, n: nat)
    requires PlansOnlyGiven(w) && s.roles == p.game.roles
    requires role in p.game.connections && role in p.game.roles
    requires n <= |p.policyLog| && Owned(s, p.policyLog, n)
    ensures var q := PolicyTurn(p, w, role, taken).0;
            p.policyLog <= q.policyLog && Owned(s, q.policyLog, n) && q.patrolLog == p.patrolLog && q.attempts == p.attempts
  {
    var given := Given(p.game, role, taken);
    forall unit | unit in given ensures PlannerOwns(s, role, unit) {
      SameOwner(s, p.game, role, unit);
    }
    PlanIsOwned(s, p.(game := Planning(Evaluated(p.game, role), w, role)), w, role, given, p.game.nextId, n);
  }

  lemma {:induction false} TurnsAreOwned(s: State, p: Planner, w: World, roles: seq<nat>, taken: set<nat>, n: nat)
    requires PlansOnlyGiven(w) && s.roles == p.game.roles
    requires forall r :: r in roles ==> r in p.game.connections && r in p.game.roles
    requires n <= |p.policyLog| && Owned(s, p.policyLog, n)
    ensures var q := PolicyTurns(p, w, roles, taken);
            p.policyLog <= q.policyLog && Owned(s, q.policyLog, n) && q.patrolLog == p.patrolLog && q.attempts == p.attempts
    decreases |roles|
  {
    if roles != [] {
      TurnIsOwned(s, p, w, roles[0], taken, n);
      var turn := PolicyTurn(p, w, roles[0], taken);
      TurnsAreOwned(s, turn.0, w, roles[1..], turn.1, n);
    }
  }

  // ---- Patrol takes each unit once, the most specific role first ------------------------------

  /** What one patrol phase adds to the log from n on, having started with some units taken. */
  ghost predicate PatrolledOnce(s: State, w: World, log: seq<Command>, n: nat, before: set<nat>, after: set<nat>) {
    && (forall i :: n <= i < |log| ==>
          && log[i].unit in after && log[i].unit !in before && PatrolRole(s, log[i].role)
          && log[i].unit in s.roles[log[i].role].units && w.air(log[i].role, log[i].unit)
          && (NoAgents(s) || PlannerOwns(s, log[i].role, log[i].unit)))
    && (forall i, j :: n <= i < j < |log| ==> log[i].unit != log[j].unit)
  }

  ghost predicate Alike(s: State, t: State) {
    t == s.(nextId := t.nextId, traffic := t.traffic, submissions := t.submissions, status := t.status)
  }

  lemma TakesAlike(s: State, t: State, w: World, role: nat, unit: nat, taken: set<nat>)
    requires Alike(s, t)
    ensures Takes(t, w, role, unit, taken) == Takes(s, w, role, unit, taken)
  {
    SameOwner(s, t, role, unit);
  }

  lemma {:induction false} UnitsPatrolledOnce(s: State, p: Planner, w: World, role: nat, units: seq<nat>, taken: set<nat>)
    requires Alike(s, p.game) && PatrolRole(s, role) && forall u :: u in units ==> u in s.roles[role].units
    ensures var r := PatrolUnits(p, w, role, units, taken);
            && r.planner.policyLog == p.policyLog && p.patrolLog <= r.planner.patrolLog && taken <= r.taken
            && PatrolledOnce(s, w, r.planner.patrolLog, |p.patrolLog|, taken, r.taken)
            && (forall i :: |p.patrolLog| <= i < |r.planner.patrolLog| ==> r.planner.patrolLog[i].role == role)
    decreases |units|
  {
    if units != [] {
      var unit := units[0];
      TakesAlike(s, p.game, w, role, unit, taken);
      if !Takes(p.game, w, role, unit, taken) {
        UnitsPatrolledOnce(s, p, w, role, units[1..], taken);
      } else if !Orders(p, w, role, unit) {
        UnitsPatrolledOnce(s, p, w, role, units[1..], taken + {unit});
      } else if Patrolling(p, w, role, unit).game.status == Running {
        UnitsPatrolledOnce(s, Patrolling(p, w, role, unit), w, role, units[1..], taken + {unit});
      }
    }
  }

  lemma {:induction false} UnitsAllTaken(s: State, p: Planner, w: World, role: nat, units: seq<nat>, taken: set<nat>)
    requires Alike(s, p.game) && NoAgents(s)
    ensures var r := PatrolUnits(p, w, role, units, taken);
            taken <= r.taken && (!r.stopped ==> forall u :: u in units && w.air(role, u) ==> u in r.taken)
    decreases |units|
  {
    if units != [] {
      var unit := units[0];
      if !Takes(p.game, w, role, unit, taken) {
        UnitsAllTaken(s, p, w, role, units[1..], taken);
      } else if !Orders(p, w, role, unit) {
        UnitsAllTaken(s, p, w, role, units[1..], taken + {unit});
      } else if Patrolling(p, w, role, unit).game.status == Running {
        UnitsAllTaken(s, Patrolling(p, w, role, unit), w, role, units[1..], taken + {unit});
      }
      assert forall u :: u in units ==> u == unit || u in units[1..];
    }
  }

  /** Of the roles done so far, every aircraft is taken. */
  ghost predicate Swept(s: State, w: World, done: set<nat>, taken: set<nat>) {
    forall r, u :: r in done && r in s.roles && u in s.roles[r].units && w.air(r, u) ==> u in taken
  }

  /** Every patrol order went to the first of the patrol roles that see the unit as an aircraft. */
  ghost predicate MostSpecificFirst(s: State, w: World, log: seq<Command>, n: nat) {
    forall i, q :: (n <= i < |log| && PatrolRole(s, log[i].role) && PatrolRole(s, q)
                    && log[i].unit in s.roles[q].units && w.air(q, log[i].unit)) ==>
      Precedes(s, log[i].role, q)
  }

  /** The roles still to come are the later ones of the planning order. */
  ghost predicate Remaining(s: State, roles: seq<nat>, done: set<nat>) {
    && (forall i :: 0 <= i < |roles| ==> PatrolRole(s, roles[i]))
    && (forall r :: PatrolRole(s, r) ==> r in done || r in roles)
    && (forall i, j :: 0 <= i < j < |roles| ==> Precedes(s, roles[i], roles[j]))
  }

  lemma {:induction false} TurnsPatrolOnce(s: State, p: Planner, w: World, roles: seq<nat>, taken: set<nat>, done: set<nat>)
    requires Alike(s, p.game) && Remaining(s, roles, done)
    ensures var q := PatrolTurns(p, w, roles, taken);
            && q.policyLog == p.policyLog && p.patrolLog <= q.patrolLog
            && (exists after :: PatrolledOnce(s, w, q.patrolLog, |p.patrolLog|, taken, after))
            && (NoAgents(s) && Swept(s, w, done, taken) ==> MostSpecificFirst(s, w, q.patrolLog, |p.patrolLog|))
    decreases |roles|
  {
    if roles == [] {
      assert PatrolledOnce(s, w, p.patrolLog, |p.patrolLog|, taken, {});
    } else {
      var role := roles[0];
      var units := SortedKeys(p.game.roles[role].units);
      var turn := PatrolUnits(p, w, role, units, taken);
      UnitsPatrolledOnce(s, p, w, role, units, taken);
      if NoAgents(s) && Swept(s, w, done, taken) {
        FirstOfRest(s, w, turn.planner.patrolLog, |p.patrolLog|, roles, taken, turn.taken, done);
        UnitsAllTaken(s, p, w, role, units, taken);
      }
      if !turn.stopped {
        TurnsPatrolOnce(s, turn.planner, w, roles[1..], turn.taken, done + {role});
        var q := PatrolTurns(turn.planner, w, roles[1..], turn.taken);
        var after :| PatrolledOnce(s, w, q.patrolLog, |turn.planner.patrolLog|, turn.taken, after);
        OnceThenOnce(s, w, turn.planner.patrolLog, q.patrolLog, |p.patrolLog|, taken, turn.taken, after);
        if NoAgents(s) && Swept(s, w, done, taken) {
          assert Swept(s, w, done + {role}, turn.taken);
          FirstThenFirst(s, w, turn.planner.patrolLog, q.patrolLog, |p.patrolLog|);
        }
      }
    }
  }

  lemma FirstOfRest(
    s: State, w: World, log: seq<Command>, n: nat, roles: seq<nat>, taken: set<nat>, after: set<nat>, done: set<nat>)
    requires Remaining(s, roles, done) && roles != [] && Swept(s, w, done, taken)
    requires PatrolledOnce(s, w, log, n, taken, after) && forall i :: n <= i < |log| ==> log[i].role == roles[0]
    ensures MostSpecificFirst(s, w, log, n)
  {
    forall i, q | n <= i < |log| && PatrolRole(s, log[i].role) && PatrolRole(s, q)
      && log[i].unit in s.roles[q].units && w.air(q, log[i].unit)
      ensures Precedes(s, log[i].role, q)
    {
      assert q !in done;
      var j :| 0 <= j < |roles| && roles[j] == q;
    }
  }

  lemma FirstThenFirst(s: State, w: World, log: seq<Command>, next: seq<Command>, n: nat)
    requires n <= |log| && log <= next && MostSpecificFirst(s, w, log, n) && MostSpecificFirst(s, w, next, |log|)
    ensures MostSpecificFirst(s, w, next, n)
  {
    forall i, q | n <= i < |next| && PatrolRole(s, next[i].role) && PatrolRole(s, q)
      && next[i].unit in s.roles[q].units && w.air(q, next[i].unit)
      ensures Precedes(s, next[i].role, q)
    {
      if i < |log| {
        assert log[i] == next[i];
      }
    }
  }

  lemma OnceThenOnce(
    s: State, w: World, log: seq<Command>, next: seq<Command>, n: nat, before: set<nat>, taken: set<nat>, after: set<nat>)
    requires n <= |log| && log <= next && before <= taken
    requires PatrolledOnce(s, w, log, n, before, taken) && PatrolledOnce(s, w, next, |log|, taken, after)
    ensures PatrolledOnce(s, w, next, n, before, taken + after)
  {
    assert forall i :: n <= i < |log| ==> log[i] == next[i];
  }

  ghost predicate InPlanningOrder(s: State, ordered: seq<nat>) {
    forall i, j :: 0 <= i < j < |ordered| ==>
      && ordered[i] in s.roles && ordered[j] in s.roles
      && ordered[i] != ordered[j] && Precedes(s, ordered[i], ordered[j])
  }

  lemma PrependInOrder(s: State, k: nat, rest: seq<nat>)
    requires InPlanningOrder(s, rest) && k in s.roles
    requires forall r :: r in rest ==> r in s.roles && r != k && Precedes(s, k, r)
    ensures InPlanningOrder(s, [k] + rest)
  {
    assert forall i :: 0 <= i < |rest| ==> rest[i] in rest;
  }

  /** Planning order is by scope, then by identifier, each role once. */
  lemma {:induction false} ByScopeIsOrdered(s: State, roles: set<nat>)
    requires forall r :: r in roles ==> r in s.roles
    ensures InPlanningOrder(s, ByScope(s, roles))
    decreases |roles|
  {
    if roles != {} {
      var k := First(s, roles);
      ByScopeIsOrdered(s, roles - {k});
      PrependInOrder(s, k, ByScope(s, roles - {k}));
    }
  }

  lemma PatrolRolesRemain(s: State)
    ensures Remaining(s, PatrolRoles(s), {})
  {
    var roles := PatrolRoles(s);
    ByScopeIsOrdered(s, set r | r in s.roles && PatrolRole(s, r));
    assert forall i :: 0 <= i < |roles| ==> roles[i] in roles;
  }

  // ---- One pass ---------------------------------------------------------------------------------

  /** An order given in the part of a pass from p to q, by either planner. */
  ghost predicate GivenIn(p: Planner, q: Planner, o: Command) {
    || (exists i :: |p.policyLog| <= i < |q.policyLog| && q.policyLog[i] == Gave(o))
    || (exists i :: |p.patrolLog| <= i < |q.patrolLog| && q.patrolLog[i] == o)
  }

  lemma PoliciesOwned(p: Planner, w: World)
    requires PlansOnlyGiven(w) && PolicyRolesKnown(p.game)
    ensures var t := ProcessPolicies(p, w);
            && p.policyLog <= t.policyLog && Owned(p.game, t.policyLog, |p.policyLog|)
            && t.patrolLog == p.patrolLog && t.attempts == p.attempts && t.game.roles == p.game.roles
            && (NoAgents(p.game) ==> t == p)
  {
    var adopted := Adopted(p.game);
    TurnsAreOwned(p.game, p.(game := adopted), w, PolicyRoles(adopted), {}, |p.policyLog|);
    if NoAgents(p.game) {
      assert adopted.connections == map[];
      assert adopted == p.game;
      assert PolicyRoles(adopted) == [];
    }
  }

  /** The two phases of a running pass together. */
  lemma PassPhases(p: Planner, w: World)
    requires PlansOnlyGiven(w) && PolicyRolesKnown(p.game) && p.game.status == Running && !p.game.complete
    ensures var t, q := ProcessPolicies(p, w), ProcessAiOrders(p, w);
            && Owned(p.game, q.policyLog, |p.policyLog|) && t.game.roles == p.game.roles
            && (NoAgents(p.game) ==> q.policyLog == p.policyLog && t == p)
            && (exists after :: PatrolledOnce(t.game, w, q.patrolLog, |p.patrolLog|, {}, after))
            && (NoAgents(t.game) ==> MostSpecificFirst(t.game, w, q.patrolLog, |p.patrolLog|))
  {
    var t := ProcessPolicies(p, w);
    PoliciesOwned(p, w);
    PatrolRolesRemain(t.game);
    TurnsPatrolOnce(t.game, t, w, PatrolRoles(t.game), {}, {});
  }

  /** In one pass all orders to a unit come from one role. Once any goal, controller, decision or history
      exists, that role is the unit's unique owner: the AI role over it with the smallest scope. */
  lemma OneRolePlansEachUnit(p: Planner, w: World, x: Command, y: Command)
    requires PlansOnlyGiven(w) && PolicyRolesKnown(p.game) && |p.game.history| <= HISTORY
    ensures var q := ProcessAiOrders(p, w);
            GivenIn(p, q, x) && GivenIn(p, q, y) ==>
              && (x.unit == y.unit ==> x.role == y.role)
              && (!NoAgents(p.game) ==> PlannerOwns(p.game, x.role, x.unit))
  {
    if GivenIn(p, ProcessAiOrders(p, w), x) && GivenIn(p, ProcessAiOrders(p, w), y) {
      GivenOrdersAgree(p, w, x, y);
    }
  }

  lemma GivenOrdersAgree(p: Planner, w: World, x: Command, y: Command)
    requires PlansOnlyGiven(w) && PolicyRolesKnown(p.game) && |p.game.history| <= HISTORY
    requires GivenIn(p, ProcessAiOrders(p, w), x) && GivenIn(p, ProcessAiOrders(p, w), y)
    ensures x.unit == y.unit ==> x.role == y.role
    ensures !NoAgents(p.game) ==> PlannerOwns(p.game, x.role, x.unit)
  {
    PassPhases(p, w);
    var t, q := ProcessPolicies(p, w), ProcessAiOrders(p, w);
    var after :| PatrolledOnce(t.game, w, q.patrolLog, |p.patrolLog|, {}, after);
    if NoAgents(p.game) {
      assert p.policyLog == q.policyLog;
    } else {
      AgentsStay(p, w);
      SameOwner(p.game, t.game, x.role, x.unit);
      SameOwner(p.game, t.game, y.role, y.unit);
      PlannerIsUnique(p.game, x.unit);
    }
  }

  /** A pass never makes the agents' state empty. */
  lemma AgentsStay(p: Planner, w: World)
    requires PolicyRolesKnown(p.game) && |p.game.history| <= HISTORY && !NoAgents(p.game)
    ensures !NoAgents(ProcessPolicies(p, w).game)
  {
    PoliciesStayInFrame(p, w);
    HistoryStays(p, w);
  }

  /** Without agents' state, a patrol order goes to the AI role with the smallest scope among those that
      see the unit as an aircraft, and to no unit twice. */
  lemma SmallestScopePatrols(p: Planner, w: World, i: nat, q: nat)
    requires PlansOnlyGiven(w) && NoAgents(p.game)
    requires p.game.status == Running && !p.game.complete
    requires |p.patrolLog| <= i < |ProcessAiOrders(p, w).patrolLog|
    ensures var log := ProcessAiOrders(p, w).patrolLog;
            && Controls(p.game, log[i].role, log[i].unit) && w.air(log[i].role, log[i].unit)
            && (Controls(p.game, q, log[i].unit) && w.air(q, log[i].unit) ==> Precedes(p.game, log[i].role, q))
            && (forall j :: i < j < |log| ==> log[j].unit != log[i].unit)
  {
    PassPhases(p, w);
  }
}
