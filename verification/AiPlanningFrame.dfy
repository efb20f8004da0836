/** The planning pass stays within the frame that the external controllers' safety results assume of it. */
module AiPlanningFrame {
  import opened Ordered
  import opened OrderTraffic
  import opened Agents
  import opened AiPlanning
  import AgentGoals
  import AgentSafety

  ghost predicate Within(s: State, t: State) {
    PlannerFrame(s, t) && t.connections.Keys == s.connections.Keys
  }

  lemma FrameChains(s: State, t: State, u: State)
    requires PlannerFrame(s, t) && Within(t, u)
    ensures PlannerFrame(s, u)
    ensures Within(s, t) ==> Within(s, u)
  {
    ConnectionsChain(s, t, u);
    SubmissionsChain(s, t, u);
    PlacedChain(s, t, u);
  }

  lemma ConnectionsChain(s: State, t: State, u: State)
    requires ConnectionsFrame(s, t) && ConnectionsFrame(t, u) && u.connections.Keys == t.connections.Keys
    ensures ConnectionsFrame(s, u)
  {
    forall r | r in s.connections ensures PlannerKeeps(s.connections[r], u.connections[r]) {
      assert PlannerKeeps(s.connections[r], t.connections[r]) && PlannerKeeps(t.connections[r], u.connections[r]);
    }
    forall r | r in u.connections && r !in s.connections
      ensures r in s.roles && s.roles[r].aiControlled
      ensures PlannerKeeps(NewConnection(Deterministic, s.roles[r].generation, None, 30_000), u.connections[r])
    {
      assert r in t.connections && PlannerKeeps(t.connections[r], u.connections[r]);
    }
  }

  lemma SubmissionsChain(s: State, t: State, u: State)
    requires SubmissionsFrame(s, t) && SubmissionsFrame(t, u) && PlacedFrame(s, t) && PlacedFrame(t, u)
    requires s.nextId <= t.nextId <= u.nextId
    ensures SubmissionsFrame(s, u)
  {
    forall i | |s.submissions| <= i < |u.submissions|
      ensures !u.submissions[i].external && NewlyNumbered(s, u, u.submissions[i].intent)
    {
      if i < |t.submissions| {
        assert u.submissions[i] == t.submissions[i] && NewlyNumbered(s, t, t.submissions[i].intent);
      } else {
        assert NewlyNumbered(t, u, u.submissions[i].intent);
      }
    }
    forall i, j | |s.submissions| <= i < j < |u.submissions| ensures u.submissions[i].intent != u.submissions[j].intent {
      if i < |t.submissions| {
        assert u.submissions[i] == t.submissions[i] && NewlyNumbered(s, t, t.submissions[i].intent);
        if j < |t.submissions| {
          assert u.submissions[j] == t.submissions[j];
        } else {
          assert NewlyNumbered(t, u, u.submissions[j].intent);
        }
      }
    }
  }

  lemma PlacedChain(s: State, t: State, u: State)
    requires PlacedFrame(s, t) && PlacedFrame(t, u) && t.nextId <= u.nextId
    ensures PlacedFrame(s, u)
  {
  }

  lemma ActIsWithin(s: State, role: nat, a: Action, observation: nat, index: nat, answer: Answer)
    requires role in s.connections && role in s.roles && |s.history| <= HISTORY && observation < s.nextId
    ensures Within(s, Act(s, role, a, observation, index, false, answer).0)
  {
    var (t, outcome) := Act(s, role, a, observation, index, false, answer);
    if a.Order? {
      AgentSafety.OrderShaped(s, role, a, observation, index, false, answer);
    } else {
      AgentSafety.OtherActShaped(s, role, a, observation, index, false, answer);
    }
    if AssignmentsInScope(s) {
      AgentGoals.ActKeepsScope(s, role, a, observation, index, false, answer);
    }
    ShapeIsWithin(s, t, role, a, Named(observation, index), outcome.Accepted?);
  }

  /** An order of a plan is numbered under the plan's own observation. */
  lemma ShapeIsWithin(s: State, t: State, role: nat, a: Action, intent: IntentId, accepted: bool)
    requires role in s.connections && intent.Named? && |s.history| <= HISTORY && intent.namespace < s.nextId
    requires AgentSafety.ActShape(s, t, role, a, intent, false, accepted)
    requires AssignmentsInScope(s) ==> AssignmentsInScope(t)
    ensures Within(s, t)
  {
  }

  lemma ActionIsWithin(p: Planner, w: World, role: nat, a: Action, observation: nat, index: nat)
    requires role in p.game.connections && role in p.game.roles && |p.game.history| <= HISTORY && observation < p.game.nextId
    ensures Within(p.game, PolicyAction(p, w, role, a, observation, index).game)
  {
    var s := p.game;
    var c := s.connections[role];
    if RepeatsTooSoon(c, a, s.tick) {
      NothingIsWithin(s);
    } else {
      var tried := if a.Order? then s.(connections := s.connections[role := c.(
        attempts := c.attempts[a.unit := Attempt(s.tick, a.kind)])]) else s;
      NothingIsWithin(s);
      OneChangeIsWithin(s, tried, role);
      ActIsWithin(tried, role, a, observation, index, w.answer(role, index));
      FrameChains(s, tried, PolicyAction(p, w, role, a, observation, index).game);
    }
  }

  lemma {:induction false} ActionsAreWithin(
    p: Planner, w: World, role: nat, actions: seq<Action>, observation: nat, index: nat)
    requires role in p.game.connections && role in p.game.roles && index <= |actions| && |p.game.history| <= HISTORY
    requires observation < p.game.nextId
    ensures Within(p.game, PolicyActions(p, w, role, actions, observation, index).game)
    decreases |actions| - index
  {
    if index < |actions| {
      var q := PolicyAction(p, w, role, actions[index], observation, index);
      ActionIsWithin(p, w, role, actions[index], observation, index);
      ActionsAreWithin(q, w, role, actions, observation, index + 1);
      FrameChains(p.game, q.game, PolicyActions(q, w, role, actions, observation, index + 1).game);
    }
  }

  lemma NotedIsWithin(s: State, note: Note)
    requires |s.history| <= HISTORY
    ensures Within(s, s.(history := Noted(s.history, note)))
  {
  }

  lemma PlanIsWithin(p: Planner, w: World, role: nat, given: set<nat>, observation: nat)
    requires role in p.game.connections && role in p.game.roles && |p.game.history| <= HISTORY && observation < p.game.nextId
    ensures Within(p.game, PolicyPlan(p, w, role, given, observation).game)
  {
    var t := PolicyActions(p, w, role, w.plan(role, given), observation, 0).game;
    ActionsAreWithin(p, w, role, w.plan(role, given), observation, 0);
    NotedIsWithin(t, Note(role, NoteKind.Planned));
    FrameChains(p.game, t, t.(history := Noted(t.history, Note(role, NoteKind.Planned))));
  }

  lemma TurnIsWithin(p: Planner, w: World, role: nat, taken: set<nat>)
    requires role in p.game.connections && role in p.game.roles && |p.game.history| <= HISTORY
    ensures Within(p.game, PolicyTurn(p, w, role, taken).0.game)
  {
    var s := p.game;
    var planning := Planning(Evaluated(s, role), w, role);
    MarkingIsWithin(s, w, role);
    PlanIsWithin(p.(game := planning), w, role, Given(s, role, taken), s.nextId);
    FrameChains(s, planning, PolicyPlan(p.(game := planning), w, role, Given(s, role, taken), s.nextId).game);
    TurnUnfolds(p, w, role, taken);
  }

  lemma MarkingIsWithin(s: State, w: World, role: nat)
    requires role in s.connections && |s.history| <= HISTORY
    ensures Within(s, s) && Within(s, Evaluated(s, role)) && Within(s, Planning(Evaluated(s, role), w, role))
  {
    var evaluated := Evaluated(s, role);
    NothingIsWithin(s);
    OneChangeIsWithin(s, evaluated, role);
    OneChangeIsWithin(evaluated, Planning(evaluated, w, role), role);
    FrameChains(s, evaluated, Planning(evaluated, w, role));
  }

  lemma NothingIsWithin(s: State)
    requires |s.history| <= HISTORY
    ensures Within(s, s)
  {
  }

  lemma OneChangeIsWithin(s: State, t: State, role: nat)
    requires role in s.connections && role in t.connections && |s.history| <= HISTORY
    requires t == s.(connections := s.connections[role := t.connections[role]], nextId := t.nextId) && t.nextId >= s.nextId
    requires PlannerKeeps(s.connections[role], t.connections[role])
    requires t.connections[role].assignments == s.connections[role].assignments
    ensures Within(s, t)
  {
  }

  lemma TurnUnfolds(p: Planner, w: World, role: nat, taken: set<nat>)
    requires role in p.game.connections && role in p.game.roles
    ensures var s, q := p.game, PolicyTurn(p, w, role, taken).0;
            || q == p || q == p.(game := Evaluated(s, role))
            || q == PolicyPlan(p.(game := Planning(Evaluated(s, role), w, role)), w, role, Given(s, role, taken), s.nextId)
  {
  }

  lemma {:induction false} TurnsAreWithin(p: Planner, w: World, roles: seq<nat>, taken: set<nat>)
    requires (forall r :: r in roles ==> r in p.game.connections && r in p.game.roles) && |p.game.history| <= HISTORY
    ensures Within(p.game, PolicyTurns(p, w, roles, taken).game)
    decreases |roles|
  {
    if roles != [] {
      var turn := PolicyTurn(p, w, roles[0], taken);
      TurnIsWithin(p, w, roles[0], taken);
      TurnsAreWithin(turn.0, w, roles[1..], turn.1);
      FrameChains(p.game, turn.0.game, PolicyTurns(turn.0, w, roles[1..], turn.1).game);
    }
  }

  lemma AdoptionIsFramed(s: State)
    requires |s.history| <= HISTORY
    ensures PlannerFrame(s, Adopted(s))
  {
    forall r | r in s.connections ensures PlannerKeeps(s.connections[r], Adopted(s).connections[r]) {
      assert Adopted(s).connections[r] == s.connections[r];
    }
  }

  lemma PoliciesStayInFrame(p: Planner, w: World)
    requires PolicyRolesKnown(p.game) && |p.game.history| <= HISTORY
    ensures PlannerFrame(p.game, ProcessPolicies(p, w).game)
  {
    var adopted := Adopted(p.game);
    AdoptionIsFramed(p.game);
    TurnsAreWithin(p.(game := adopted), w, PolicyRoles(adopted), {});
    FrameChains(p.game, adopted, ProcessPolicies(p, w).game);
  }

  lemma {:induction false} PatrolStaysInFrame(p: Planner, w: World, roles: seq<nat>, taken: set<nat>)
    requires (forall r :: r in roles ==> r in p.game.roles) && |p.game.history| <= HISTORY
    ensures var t := PatrolTurns(p, w, roles, taken).game;
            Within(p.game, t)
            && t == p.game.(nextId := t.nextId, traffic := t.traffic, submissions := t.submissions, status := t.status)
    decreases |roles|
  {
    if roles != [] {
      var units := SortedKeys(p.game.roles[roles[0]].units);
      var turn := PatrolUnits(p, w, roles[0], units, taken);
      UnitsStayInFrame(p, w, roles[0], units, taken);
      if !turn.stopped {
        PatrolStaysInFrame(turn.planner, w, roles[1..], turn.taken);
        var q := PatrolTurns(turn.planner, w, roles[1..], turn.taken).game;
        FrameChains(p.game, turn.planner.game, q);
      }
    }
  }

  lemma SentIsWithin(s: State, t: State, sent: Sent, order: Submission)
    requires |s.history| <= HISTORY && order.intent == Issued(s.nextId) && !order.external
    requires s.nextId < sent.next && (Numbered(s.traffic, s.nextId) ==> Numbered(sent.traffic, sent.next))
    requires t == Through(s, sent).(submissions := if sent.accepted then s.submissions + [order] else s.submissions)
    ensures Within(s, t)
  {
  }

  lemma PatrollingIsWithin(p: Planner, w: World, role: nat, unit: nat)
    requires |p.game.history| <= HISTORY && w.patrol(role, unit).Some?
    ensures Within(p.game, Patrolling(p, w, role, unit).game)
  {
    var s, kind := p.game, w.patrol(role, unit).value;
    var sent := Dispatch(s.traffic, SeatsOf(s), s.nextId + 1, Issued(s.nextId), unit, kind.Move?, w.sent(role, unit));
    DispatchNumbers(s.traffic, SeatsOf(s), s.nextId + 1, Issued(s.nextId), unit, kind.Move?, w.sent(role, unit));
    SentIsWithin(s, Patrolling(p, w, role, unit).game, sent, Submission(Issued(s.nextId), role, unit, kind, false));
  }

  lemma {:induction false} UnitsStayInFrame(p: Planner, w: World, role: nat, units: seq<nat>, taken: set<nat>)
    requires |p.game.history| <= HISTORY
    ensures Within(p.game, PatrolUnits(p, w, role, units, taken).planner.game)
    decreases |units|
  {
    if units != [] {
      var unit := units[0];
      if !Takes(p.game, w, role, unit, taken) {
        UnitsStayInFrame(p, w, role, units[1..], taken);
      } else if !Orders(p, w, role, unit) {
        UnitsStayInFrame(p, w, role, units[1..], taken + {unit});
      } else {
        var q := Patrolling(p, w, role, unit);
        PatrollingIsWithin(p, w, role, unit);
        if q.game.status == Running {
          UnitsStayInFrame(q, w, role, units[1..], taken + {unit});
          FrameChains(p.game, q.game, PatrolUnits(q, w, role, units[1..], taken + {unit}).planner.game);
        }
      }
    }
  }

  /** A whole pass is a planner step of module Agents, also when a submission halts the game. */
  lemma {:induction false} PassStaysInFrame(p: Planner, w: World)
    requires PolicyRolesKnown(p.game) && |p.game.history| <= HISTORY
    ensures PlannerFrame(p.game, ProcessAiOrders(p, w).game)
  {
    if p.game.status == Running && !p.game.complete {
      var t := ProcessPolicies(p, w);
      PoliciesStayInFrame(p, w);
      PatrolStaysInFrame(t, w, PatrolRoles(t.game), {});
      FrameChains(p.game, t.game, ProcessAiOrders(p, w).game);
    }
  }

  // ---- History is never emptied ----------------------------------------------------------------

  lemma {:induction false} ActionsKeepHistory(
    p: Planner, w: World, role: nat, actions: seq<Action>, observation: nat, index: nat)
    requires role in p.game.connections && role in p.game.roles && index <= |actions|
    ensures PolicyActions(p, w, role, actions, observation, index).game.history == p.game.history
    decreases |actions| - index
  {
    if index < |actions| {
      ActionsKeepHistory(PolicyAction(p, w, role, actions[index], observation, index), w, role, actions, observation, index + 1);
    }
  }

  lemma TurnKeepsHistory(p: Planner, w: World, role: nat, taken: set<nat>)
    requires role in p.game.connections && role in p.game.roles && p.game.history != []
    ensures PolicyTurn(p, w, role, taken).0.game.history != []
  {
    ActionsKeepHistory(
      p.(game := Planning(Evaluated(p.game, role), w, role)), w, role, w.plan(role, Given(p.game, role, taken)), p.game.nextId, 0);
    TurnUnfolds(p, w, role, taken);
  }

  lemma {:induction false} TurnsKeepHistory(p: Planner, w: World, roles: seq<nat>, taken: set<nat>)
    requires forall r :: r in roles ==> r in p.game.connections && r in p.game.roles
    requires p.game.history != []
    ensures PolicyTurns(p, w, roles, taken).game.history != []
    decreases |roles|
  {
    if roles != [] {
      TurnKeepsHistory(p, w, roles[0], taken);
      var turn := PolicyTurn(p, w, roles[0], taken);
      TurnsKeepHistory(turn.0, w, roles[1..], turn.1);
    }
  }

  lemma HistoryStays(p: Planner, w: World)
    requires PolicyRolesKnown(p.game)
    ensures p.game.history != [] ==> ProcessPolicies(p, w).game.history != []
  {
    if p.game.history != [] {
      var adopted := Adopted(p.game);
      TurnsKeepHistory(p.(game := adopted), w, PolicyRoles(adopted), {});
    }
  }
}
