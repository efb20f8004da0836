/** Policies are evaluated once a tick: a second pass in the same tick changes nothing. */
module AiPlanningTicks {
  import opened Ordered
  import opened OrderTraffic
  import opened Agents
  import opened AiPlanning

  ghost predicate EvaluatedNow(s: State, role: nat) {
    role in s.connections && s.connections[role].lastEvaluationTick == Some(s.tick)
  }

  /** What a role's turn leaves of the others, of the clock and of its own evaluation mark. */
  ghost predicate OthersKept(s: State, t: State, role: nat) {
    && t.tick == s.tick && t.goals == s.goals && t.roles == s.roles && t.connections.Keys == s.connections.Keys
    && (forall r :: r in s.connections && r != role ==> t.connections[r] == s.connections[r])
  }

  lemma ActionKeepsOthers(p: Planner, w: World, role: nat, a: Action, observation: nat, index: nat)
    requires role in p.game.connections && role in p.game.roles
    ensures var q := PolicyAction(p, w, role, a, observation, index);
            && OthersKept(p.game, q.game, role)
            && q.game.connections[role].lastEvaluationTick == p.game.connections[role].lastEvaluationTick
  {
    var s := p.game;
    var tried := if a.Order? then s.(connections := s.connections[role := s.connections[role].(
      attempts := s.connections[role].attempts[a.unit := Attempt(s.tick, a.kind)])]) else s;
    ActKeepsOthers(tried, role, a, observation, index, w.answer(role, index));
  }

  lemma ActKeepsOthers(s: State, role: nat, a: Action, observation: nat, index: nat, answer: Answer)
    requires role in s.connections && role in s.roles
    ensures var t := Act(s, role, a, observation, index, false, answer).0;
            OthersKept(s, t, role) && t.connections[role].lastEvaluationTick == s.connections[role].lastEvaluationTick
  {
  }

  lemma {:induction false} ActionsKeepOthers(p: Planner, w: World, role: nat, actions: seq<Action>, observation: nat, index: nat)
    requires role in p.game.connections && role in p.game.roles && index <= |actions|
    ensures var q := PolicyActions(p, w, role, actions, observation, index);
            && OthersKept(p.game, q.game, role)
            && q.game.connections[role].lastEvaluationTick == p.game.connections[role].lastEvaluationTick
    decreases |actions| - index
  {
    if index < |actions| {
      ActionKeepsOthers(p, w, role, actions[index], observation, index);
      ActionsKeepOthers(PolicyAction(p, w, role, actions[index], observation, index), w, role, actions, observation, index + 1);
    }
  }

  lemma TurnMarksRole(p: Planner, w: World, role: nat, taken: set<nat>)
    requires role in p.game.connections && role in p.game.roles
    ensures var q := PolicyTurn(p, w, role, taken).0;
            OthersKept(p.game, q.game, role) && EvaluatedNow(q.game, role)
            && (EvaluatedNow(p.game, role) ==> PolicyTurn(p, w, role, taken) == (p, taken))
  {
    MarkingKeepsOthers(p.game, w, role);
    PlanKeepsOthers(
      p.(game := Planning(Evaluated(p.game, role), w, role)), w, role, Given(p.game, role, taken), p.game.nextId);
  }

  lemma MarkingKeepsOthers(s: State, w: World, role: nat)
    requires role in s.connections
    ensures OthersKept(s, Evaluated(s, role), role) && EvaluatedNow(Evaluated(s, role), role)
    ensures OthersKept(s, Planning(Evaluated(s, role), w, role), role)
            && EvaluatedNow(Planning(Evaluated(s, role), w, role), role)
  {
  }

  lemma PlanKeepsOthers(p: Planner, w: World, role: nat, given: set<nat>, observation: nat)
    requires role in p.game.connections && role in p.game.roles
    ensures var q := PolicyPlan(p, w, role, given, observation);
            && OthersKept(p.game, q.game, role)
            && q.game.connections[role].lastEvaluationTick == p.game.connections[role].lastEvaluationTick
  {
    ActionsKeepOthers(p, w, role, w.plan(role, given), observation, 0);
  }

  /** After the turns of some roles each is marked, and other connections are as they were. */
  lemma {:induction false} TurnsMarkRoles(p: Planner, w: World, roles: seq<nat>, taken: set<nat>)
    requires forall r :: r in roles ==> r in p.game.connections && r in p.game.roles
    ensures var t := PolicyTurns(p, w, roles, taken).game;
            && t.tick == p.game.tick && t.goals == p.game.goals && t.roles == p.game.roles
            && t.connections.Keys == p.game.connections.Keys
            && (forall r :: r in roles || EvaluatedNow(p.game, r) ==> EvaluatedNow(t, r))
            && (forall r :: r in p.game.connections && r !in roles ==> t.connections[r] == p.game.connections[r])
    decreases |roles|
  {
    if roles != [] {
      TurnMarksRole(p, w, roles[0], taken);
      var turn := PolicyTurn(p, w, roles[0], taken);
      TurnsMarkRoles(turn.0, w, roles[1..], turn.1);
      assert forall r :: r in roles <==> r == roles[0] || r in roles[1..];
    }
  }

  lemma {:induction false} MarkedTurnsAreIdle(p: Planner, w: World, roles: seq<nat>, taken: set<nat>)
    requires forall r :: r in roles ==> r in p.game.connections && r in p.game.roles && EvaluatedNow(p.game, r)
    ensures PolicyTurns(p, w, roles, taken) == p
    decreases |roles|
  {
    if roles != [] {
      TurnMarksRole(p, w, roles[0], taken);
      MarkedTurnsAreIdle(p, w, roles[1..], taken);
    }
  }

  lemma AdoptedOnce(s: State, t: State)
    requires t.goals == s.goals && t.roles == s.roles && Adopted(s).connections.Keys <= t.connections.Keys
    ensures Adopted(t) == t
  {
    assert forall r :: HasGoal(t, r) == HasGoal(s, r);
    forall r | r in t.roles && t.roles[r].aiControlled && HasGoal(t, r) ensures r in t.connections {
      assert r in Adopted(s).connections;
    }
    assert Adopted(t).connections == t.connections;
  }

  lemma PolicyRolesAreMarked(p: Planner, w: World)
    requires PolicyRolesKnown(p.game)
    ensures var t := ProcessPolicies(p, w).game;
            && t.goals == p.game.goals && t.roles == p.game.roles && Adopted(p.game).connections.Keys <= t.connections.Keys
            && (forall r :: r in t.connections && PolicyRole(t.connections[r]) ==> EvaluatedNow(t, r))
  {
    var adopted := Adopted(p.game);
    var roles, t := PolicyRoles(adopted), ProcessPolicies(p, w).game;
    TurnsMarkRoles(p.(game := adopted), w, roles, {});
    assert forall r :: r in adopted.connections && PolicyRole(adopted.connections[r]) ==> r in roles;
    assert forall r :: r in adopted.connections && r !in roles ==> t.connections[r] == adopted.connections[r];
  }

  /** Whatever the world answers the second time, a pass of the policies in the same tick does nothing. */
  lemma SecondPassIsIdle(p: Planner, w: World, again: World)
    requires PolicyRolesKnown(p.game) && PolicyRolesKnown(ProcessPolicies(p, w).game)
    ensures ProcessPolicies(ProcessPolicies(p, w), again) == ProcessPolicies(p, w)
  {
    var q := ProcessPolicies(p, w);
    PolicyRolesAreMarked(p, w);
    AdoptedOnce(p.game, q.game);
    assert q.(game := q.game) == q;
    MarkedTurnsAreIdle(q, again, PolicyRoles(q.game), {});
  }
}
