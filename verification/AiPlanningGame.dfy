/** The planning pass on a game that is updated in place, proved against module AiPlanning. */
module AiPlanningGame {
  import opened Ordered
  import opened OrderTraffic
  import opened Agents
  import opened AiPlanning

  class Game {
    var game: State
    var attempts: map<nat, PatrolAttempt>
    ghost var policyLog: seq<Entry>
    ghost var patrolLog: seq<Command>

    ghost function Model(): Planner
      reads this
    {
      Planner(game, attempts, policyLog, patrolLog)
    }

    constructor (game: State)
      ensures Model() == Planner(game, map[], [], [])
    {
      this.game, attempts, policyLog, patrolLog := game, map[], [], [];
    }

    /** Try one action of a plan; a repeat of the unit's last order waits. */
    method Try(w: World, role: nat, a: Action, observation: nat, index: nat) returns (tried: bool)
      requires role in game.connections && role in game.roles
      modifies this
      ensures role in game.connections && role in game.roles
      ensures Model() == PolicyAction(old(Model()), w, role, a, observation, index)
      ensures tried == !RepeatsTooSoon(old(game).connections[role], a, old(game).tick)
      ensures !tried ==> Model() == old(Model())
    {
      var c, tick := game.connections[role], game.tick;
      if RepeatsTooSoon(c, a, tick) {
        return false;
      }
      if a.Order? {
        game := game.(connections := game.connections[role := c.(attempts := c.attempts[a.unit := Attempt(tick, a.kind)])]);
        policyLog := policyLog + [Gave(Command(role, a.unit, a.kind, tick))];
      }
      var (t, _) := Act(game, role, a, observation, index, false, w.answer(role, index));
      game := t;
      return true;
    }

    method TryNext(w: World, role: nat, actions: seq<Action>, observation: nat, i: nat, acted: bool, ghost start: Planner)
      returns (still: bool)
      requires i < |actions| && Progressed(start, Model(), w, role, actions, observation, i, acted)
      modifies this
      ensures Progressed(start, Model(), w, role, actions, observation, i + 1, still)
    {
      ghost var before := Model();
      var tried := Try(w, role, actions[i], observation, i);
      ProgressStep(start, before, Model(), w, role, actions, observation, i, acted, tried);
      still := acted || tried;
    }

    /** The loop over a plan's actions; the answer is whether any was not a repeat. */
    method TryAll(w: World, role: nat, actions: seq<Action>, observation: nat) returns (acted: bool)
      requires role in game.connections && role in game.roles
      modifies this
      ensures Model() == PolicyActions(old(Model()), w, role, actions, observation, 0)
      ensures acted == TriedBefore(old(Model()), role, actions, |actions|)
    {
      acted := false;
      ghost var start := Model();
      for i := 0 to |actions|
        invariant Progressed(start, Model(), w, role, actions, observation, i, acted)
      {
        acted := TryNext(w, role, actions, observation, i, acted, start);
      }
      ProgressDone(start, Model(), w, role, actions, observation, acted);
    }

    method CarryOutPlan(w: World, role: nat, given: set<nat>, observation: nat)
      requires role in game.connections && role in game.roles
      modifies this
      ensures Model() == PolicyPlan(old(Model()), w, role, given, observation)
    {
      var acted := TryAll(w, role, w.plan(role, given), observation);
      if acted {
        game := game.(history := Noted(game.history, Note(role, NoteKind.Planned)));
      }
    }

    method PlanFor(w: World, role: nat, taken: set<nat>) returns (next: set<nat>)
      requires role in game.connections && role in game.roles
      modifies this
      ensures (Model(), next) == PolicyTurn(old(Model()), w, role, taken)
    {
      var c, tick := game.connections[role], game.tick;
      if c.lastEvaluationTick == Some(tick) {
        return taken;
      }
      var observation := game.nextId;
      var given := Given(game, role, taken);
      game := Evaluated(game, role);
      next := taken + given;
      if PlanNotDue(c, tick, w.observed(role)) {
        return;
      }
      game := Planning(game, w, role);
      CarryOutPlan(w, role, given, observation);
    }

    method ProcessPolicies(w: World)
      requires PolicyRolesKnown(game)
      modifies this
      ensures Model() == AiPlanning.ProcessPolicies(old(Model()), w)
    {
      game := Adopted(game);
      RunPolicies(w, PolicyRoles(game));
    }

    method RunPolicies(w: World, roles: seq<nat>)
      requires forall r :: r in roles ==> r in game.connections && r in game.roles
      modifies this
      ensures Model() == PolicyTurns(old(Model()), w, roles, {})
    {
      var taken := {};
      ghost var start := Model();
      for i := 0 to |roles|
        invariant forall r :: r in roles ==> r in game.connections && r in game.roles
        invariant PolicyTurns(Model(), w, roles[i..], taken) == PolicyTurns(start, w, roles, {})
      {
        PolicyTurnsUnfold(Model(), w, roles, i, taken);
        taken := PlanFor(w, roles[i], taken);
      }
    }

    /** Give a patrol order under the next identifier, and remember the attempt whatever becomes of it. */
    method OrderPatrol(w: World, role: nat, unit: nat, kind: OrderKind)
      requires w.patrol(role, unit) == Some(kind)
      modifies this
      ensures Model() == Patrolling(old(Model()), w, role, unit)
    {
      var intent := Issued(game.nextId);
      attempts := attempts[unit := PatrolAttempt(role, game.tick, kind)];
      patrolLog := patrolLog + [Command(role, unit, kind, game.tick)];
      var sent := Dispatch(game.traffic, SeatsOf(game), game.nextId + 1, intent, unit, kind.Move?, w.sent(role, unit));
      if sent.accepted {
        game := game.(submissions := game.submissions + [Submission(intent, role, unit, kind, false)]);
      }
      game := Through(game, sent);
    }

    method PatrolFor(w: World, role: nat, units: seq<nat>, before: set<nat>) returns (taken: set<nat>, stopped: bool)
      modifies this
      ensures Patrolled(Model(), taken, stopped) == PatrolUnits(old(Model()), w, role, units, before)
    {
      taken, stopped := before, false;
      ghost var start := Model();
      for i := 0 to |units|
        invariant PatrolUnits(Model(), w, role, units[i..], taken) == PatrolUnits(start, w, role, units, before)
      {
        var unit := units[i];
        assert units[i..][0] == unit && units[i..][1..] == units[i + 1..];
        if !Takes(game, w, role, unit, taken) {
          continue;
        }
        taken := taken + {unit};
        if w.patrol(role, unit).None? || OrderIsPending(game.traffic, unit) {
          continue;
        }
        var kind := w.patrol(role, unit).value;
        if unit in attempts && attempts[unit].role == role && attempts[unit].kind == kind
           && SaturatingSub(game.tick, attempts[unit].tick) < RETRY_TICKS {
          continue;
        }
        OrderPatrol(w, role, unit, kind);
        if game.status != Running {
          return taken, true;
        }
      }
    }

    /** The loop over patrol roles, cut short when the game is stopped. */
    method PatrolAll(w: World, roles: seq<nat>)
      requires forall r :: r in roles ==> r in game.roles
      modifies this
      ensures Model() == PatrolTurns(old(Model()), w, roles, {})
    {
      var taken := {};
      ghost var start := Model();
      for i := 0 to |roles|
        invariant game.roles == start.game.roles && forall r :: r in roles ==> r in game.roles
        invariant PatrolTurns(Model(), w, roles[i..], taken) == PatrolTurns(start, w, roles, {})
      {
        assert roles[i..][0] == roles[i] && roles[i..][1..] == roles[i + 1..];
        var stopped;
        taken, stopped := PatrolFor(w, roles[i], SortedKeys(game.roles[roles[i]].units), taken);
        if stopped {
          return;
        }
      }
    }

    method ProcessAiOrders(w: World)
      requires PolicyRolesKnown(game)
      modifies this
      ensures Model() == AiPlanning.ProcessAiOrders(old(Model()), w)
    {
      if game.status != Running || game.complete {
        return;
      }
      ProcessPolicies(w);
      PatrolAll(w, PatrolRoles(game));
    }
  }

  lemma PolicyTurnsUnfold(p: Planner, w: World, roles: seq<nat>, i: nat, taken: set<nat>)
    requires i < |roles| && forall r :: r in roles ==> r in p.game.connections && r in p.game.roles
    ensures var turn := PolicyTurn(p, w, roles[i], taken);
            PolicyTurns(p, w, roles[i..], taken) == PolicyTurns(turn.0, w, roles[i + 1..], turn.1)
  {
    assert roles[i..][0] == roles[i] && roles[i..][1..] == roles[i + 1..];
  }

  /** One of the first actions of a plan does not repeat what was tried before the plan. */
  ghost predicate TriedBefore(p: Planner, role: nat, actions: seq<Action>, n: nat)
    requires role in p.game.connections && n <= |actions|
  {
    exists j :: 0 <= j < n && !WaitsAt(p, role, actions, j)
  }

  /** The first actions of a plan are carried out, and the rest would end as the whole plan from the start. */
  ghost predicate Progressed(
    start: Planner, p: Planner, w: World, role: nat, actions: seq<Action>, observation: nat, n: nat, acted: bool) {
    && role in start.game.connections && role in start.game.roles && n <= |actions|
    && role in p.game.connections && role in p.game.roles
    && PolicyActions(p, w, role, actions, observation, n) == PolicyActions(start, w, role, actions, observation, 0)
    && acted == TriedBefore(start, role, actions, n) && (!acted ==> p == start)
  }

  lemma ProgressDone(
    start: Planner, p: Planner, w: World, role: nat, actions: seq<Action>, observation: nat, acted: bool)
    requires Progressed(start, p, w, role, actions, observation, |actions|, acted)
    ensures p == PolicyActions(start, w, role, actions, observation, 0)
    ensures acted == TriedBefore(start, role, actions, |actions|)
  {
  }

  lemma ProgressStep(
    start: Planner, p: Planner, q: Planner, w: World, role: nat, actions: seq<Action>, observation: nat, n: nat,
    acted: bool, tried: bool)
    requires Progressed(start, p, w, role, actions, observation, n, acted) && n < |actions|
    requires q == PolicyAction(p, w, role, actions[n], observation, n) && tried == !WaitsAt(p, role, actions, n)
    ensures Progressed(start, q, w, role, actions, observation, n + 1, acted || tried)
  {
    TriedOneMore(start, role, actions, n);
    ActionsUnfold(p, w, role, actions, observation, n);
    if !tried {
      assert q == p;
    }
  }

  lemma TriedOneMore(p: Planner, role: nat, actions: seq<Action>, n: nat)
    requires role in p.game.connections && n < |actions|
    ensures TriedBefore(p, role, actions, n + 1) <==> TriedBefore(p, role, actions, n) || !WaitsAt(p, role, actions, n)
  {
    if TriedBefore(p, role, actions, n) {
      var j :| 0 <= j < n && !WaitsAt(p, role, actions, j);
    }
  }

  lemma ActionsUnfold(p: Planner, w: World, role: nat, actions: seq<Action>, observation: nat, index: nat)
    requires role in p.game.connections && role in p.game.roles && index < |actions|
    ensures PolicyActions(p, w, role, actions, observation, index)
         == PolicyActions(PolicyAction(p, w, role, actions[index], observation, index), w, role, actions, observation, index + 1)
  {
  }
}
