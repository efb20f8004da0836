/** A run in which a new decision's order is refused for its identifier: a policy used it first. */
module AiPlanningConflicts {
  import opened Ordered
  import opened OrderTraffic
  import opened Agents
  import opened AiPlanning
  import AiPlanningFrame
  import AgentOrders
  import AgentRuns
  import AgentSafety

  /** One AI role with one unit, a goal, and nothing else yet. */
  function Start(): State {
    State(Running, false, 0, map[1 := Role({5}, 0, true, false, false)], {Goal(3, 1)}, map[], map[], [], 0,
          Traffic(map[], map[]), map[], [], [])
  }

  /** Its policy moves the unit, and the order is executed in the role's own terminal. */
  function Moving(): World {
    World((r, units) => [Order(5, Move(1))], r => 0, (r, i) => Answer(true, Direct, Local),
          (r, u) => false, (r, u) => None, (r, u) => Answer(true, Forbidden, Dropped))
  }

  /** The policy's order stands under the observation's identifier, and nothing is on its way. */
  ghost predicate Used(t: State) {
    && t.status == Running && !t.complete && t.tick == 0
    && t.roles == map[1 := Role({5}, 0, true, false, false)]
    && t.connections.Keys == {1} && t.connections[1].token == None
    && t.decisions == map[] && t.applied == [] && t.traffic == Traffic(map[], map[])
    && Named(0, 0) in t.placed && t.placed[Named(0, 0)].kind == Move(1)
  }

  lemma OneRoleFirst(s: State, role: nat)
    requires role in s.roles
    ensures ByScope(s, {role}) == [role]
  {
    assert {role} - {role} == {};
    assert ByScope(s, {role} - {role}) == [];
  }

  lemma AdoptedRole(s: State)
    requires s == Start()
    ensures var t := Adopted(s);
            && t == s.(connections := map[1 := NewConnection(Deterministic, 0, None, DEFAULT_TIMEOUT_MS)])
            && PolicyRolesKnown(s) && PolicyRoles(t) == [1]
  {
    var t := Adopted(s);
    assert Goal(3, 1) in s.goals;
    assert t.connections == map[1 := NewConnection(Deterministic, 0, None, DEFAULT_TIMEOUT_MS)];
    assert WithPolicy(t) == {1};
    OneRoleFirst(t, 1);
  }

  /** The turn of the one role plans and carries the order out. */
  lemma TurnUses(p: Planner, w: World)
    requires w == Moving() && p.game == Start().(connections := map[1 := NewConnection(Deterministic, 0, None, DEFAULT_TIMEOUT_MS)])
    ensures Used(PolicyTurn(p, w, 1, {}).0.game)
  {
    var t := Planning(Evaluated(p.game, 1), w, 1);
    var q := p.(game := t);
    var given := Given(p.game, 1, {});
    var actions := w.plan(1, given);
    assert actions == [Order(5, Move(1))];
    var r := PolicyAction(q, w, 1, actions[0], 0, 0);
    assert !Busy(t.traffic, 5);
    assert Used(r.game);
    assert PolicyActions(q, w, 1, actions, 0, 0) == PolicyActions(r, w, 1, actions, 0, 1) == r;
  }

  lemma PassUses(p: Planner, w: World)
    requires w == Moving() && p.game == Start()
    ensures PolicyRolesKnown(p.game) && Used(ProcessAiOrders(p, w).game)
  {
    AdoptedRole(p.game);
    var q := p.(game := Adopted(p.game));
    TurnUses(q, w);
    var turn := PolicyTurn(q, w, 1, {});
    assert [1][1..] == [];
    assert PolicyTurns(q, w, [1], {}) == PolicyTurns(turn.0, w, [], turn.1) == turn.0;
    var t := turn.0.game;
    assert (set r | r in t.roles && PatrolRole(t, r)) == {};
    assert PatrolRoles(t) == [];
  }

  lemma SwitchedAndAsked(s: State) returns (t: State)
    requires Used(s)
    ensures var a, b := ConfigureStep(1, External, 1_000, 7), AdvanceStep(0, map[]);
            && Enabled(s, a) && Enabled(Apply(s, a), b) && t == Apply(Apply(s, a), b)
            && t.status == Running && !t.complete && t.tick == 0 && t.decisions == map[] && t.applied == []
            && t.traffic == s.traffic && t.placed == s.placed && 1 in t.roles && t.roles[1].units == {5}
            && t.connections.Keys == {1} && t.connections[1].mode == External && t.connections[1].token == Some(7)
            && t.connections[1].generation == 1
            && t.connections[1].work == Some(Observation(s.nextId, 1, 1_000, {}, {}))
  {
    var u := Apply(s, ConfigureStep(1, External, 1_000, 7));
    assert u.connections == map[1 := NewConnection(External, 1, Some(7), 1_000)];
    AgentRuns.OneIsAsked(u, 7);
    t := Apply(u, AdvanceStep(0, map[]));
  }

  lemma AnsweredWithConflict(s: State, d: Decision)
    requires s.status == Running && !s.complete && s.tick == 0 && s.decisions == map[] && s.applied == []
    requires s.traffic == Traffic(map[], map[]) && Named(0, 0) in s.placed && s.placed[Named(0, 0)].kind == Move(1)
    requires 1 in s.roles && s.roles[1].units == {5}
    requires s.connections.Keys == {1} && s.connections[1].mode == External && s.connections[1].token == Some(7)
    requires s.connections[1].generation == 1 && s.connections[1].work.Some?
    requires s.connections[1].work.value.deadlineMs > 0
    requires d == Decision(0, PROTOCOL_VERSION, s.connections[1].work.value.id, 1, [Order(5, Move(2))], 0, None)
    ensures Enabled(s, DecideStep(7, d, 0, []))
    ensures var t := Decide(s, 7, d, 0, []).0; 0 in t.decisions && t.decisions[0].result == [Refused(IntentConflict)]
  {
    assert Holders(s, 7) == {1};
    assert Authenticate(s, 7) == Some(1);
    assert AgentSafety.Acceptable(s, 1, d, 0);
    var o := s.connections[1].work.value;
    AgentOrders.ConflictsExactly(s, 1, d, 0, [], 0);
    assert !Busy(s.traffic, 5);
    var results := DecideAll(s, 1, o, d, 0, []).1;
    assert results == [results[0]];
  }

  /** A policy places an order under its observation's identifier; the role is then given to an external
      controller, is asked, and names its decision like that observation. The decision is new and is carried
      out, but its order is refused as a conflict. */
  lemma NewDecisionCanConflict() returns (p: Planner, w: World, steps: seq<Agents.Step>)
    ensures Fresh(p.game) && PolicyRolesKnown(p.game)
    ensures |steps| == 4 && steps[0] == PlannerStep(ProcessAiOrders(p, w).game) && steps[3].DecideStep?
    ensures Agents.Valid(p.game, steps) && Agents.Valid(p.game, steps[..3])
    ensures var t, id := Agents.Run(p.game, steps), steps[3].decision.id;
            && id !in Agents.Run(p.game, steps[..3]).decisions
            && id in t.decisions && t.decisions[id].result == [Refused(IntentConflict)]
  {
    p, w := Planner(Start(), map[], [], []), Moving();
    PassUses(p, w);
    AiPlanningFrame.PassStaysInFrame(p, w);
    steps := PassThenTail(p.game, ProcessAiOrders(p, w).game);
  }

  lemma PassThenTail(s: State, t: State) returns (steps: seq<Agents.Step>)
    requires PlannerFrame(s, t) && Used(t)
    ensures |steps| == 4 && steps[0] == PlannerStep(t) && steps[3].DecideStep?
    ensures Agents.Valid(s, steps) && Agents.Valid(s, steps[..3])
    ensures var u, id := Agents.Run(s, steps), steps[3].decision.id;
            && id !in Agents.Run(s, steps[..3]).decisions
            && id in u.decisions && u.decisions[id].result == [Refused(IntentConflict)]
  {
    var tail := TailConflicts(t);
    AgentRuns.OneStep(s, PlannerStep(t));
    AgentRuns.RunsChain(s, [PlannerStep(t)], tail);
    AgentRuns.RunsChain(s, [PlannerStep(t)], tail[..2]);
    steps := [PlannerStep(t)] + tail;
    assert steps[..3] == [PlannerStep(t)] + tail[..2];
  }

  lemma TailConflicts(s: State) returns (steps: seq<Agents.Step>)
    requires Used(s)
    ensures |steps| == 3 && steps[2].DecideStep? && Agents.Valid(s, steps) && Agents.Valid(s, steps[..2])
    ensures var t, id := Agents.Run(s, steps), steps[2].decision.id;
            && id !in Agents.Run(s, steps[..2]).decisions
            && id in t.decisions && t.decisions[id].result == [Refused(IntentConflict)]
  {
    var t := SwitchedAndAsked(s);
    var d := Decision(0, PROTOCOL_VERSION, s.nextId, 1, [Order(5, Move(2))], 0, None);
    AnsweredWithConflict(t, d);
    var a, b, c := ConfigureStep(1, External, 1_000, 7), AdvanceStep(0, map[]), DecideStep(7, d, 0, []);
    AgentRuns.ThreeSteps(s, a, b, c);
    AgentRuns.TwoSteps(s, a, b);
    steps := [a, b, c];
    assert steps[..2] == [a, b];
  }
}
