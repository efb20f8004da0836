/** Exactly which orders the goal policies try in a pass, and what they remember of it. */
module AiPlanningPolicies {
  import opened Ordered
  import opened OrderTraffic
  import opened Agents
  import opened AiPlanning
  import opened AiPlanningSafety
  import AgentEffects
  import AiPlanningRuns
  import AiPlanningTicks

  // ---- What a role's policy tries -----------------------------------------------------------------------

  /** The kind of the last order to the unit among the first actions of a plan. */
  ghost function LastOrder(actions: seq<Action>, unit: nat): Option<OrderKind> {
    if actions == [] then None
    else
      var a := actions[|actions| - 1];
      if a.Order? && a.unit == unit then Some(a.kind) else LastOrder(actions[..|actions| - 1], unit)
  }

  /** The same order was tried ten ticks ago or less, and nothing else since, the plan so far included. */
  ghost predicate Repeats(before: map<nat, Attempt>, actions: seq<Action>, i: nat, tick: nat)
    requires i < |actions| && actions[i].Order?
  {
    var unit := actions[i].unit;
    match LastOrder(actions[..i], unit)
    case Some(kind) => kind == actions[i].kind
    case None => unit in before && before[unit].kind == actions[i].kind && tick < before[unit].tick + 10
  }

  ghost predicate TriedAt(before: map<nat, Attempt>, actions: seq<Action>, tick: nat, i: nat, o: Command) {
    && i < |actions| && actions[i] == Order(o.unit, o.kind) && o.tick == tick && !Repeats(before, actions, i, tick)
  }

  /** The orders of a plan from index on that are tried. */
  ghost function Tried(before: map<nat, Attempt>, actions: seq<Action>, role: nat, tick: nat, index: nat): (log: seq<Entry>)
    requires index <= |actions|
    ensures forall e :: e in log <==>
              e.Gave? && e.order.role == role && exists i :: i >= index && TriedAt(before, actions, tick, i, e.order)
    decreases |actions| - index
  {
    if index == |actions| then []
    else
      var rest := Tried(before, actions, role, tick, index + 1);
      var a := actions[index];
      if a.Order? && !Repeats(before, actions, index, tick) then
        var o := Command(role, a.unit, a.kind, tick);
        assert TriedAt(before, actions, tick, index, o);
        [Gave(o)] + rest
      else rest
  }

  /** The attempts remembered when the plan has been carried out up to index. */
  ghost predicate Remembers(s: State, role: nat, before: map<nat, Attempt>, actions: seq<Action>, index: nat)
    requires index <= |actions|
  {
    forall unit :: RemembersUnit(AiPlanningRuns.Kept(s, role, unit), before, actions[..index], s.tick, unit)
  }

  ghost predicate RemembersUnit(kept: Option<Attempt>, before: map<nat, Attempt>, done: seq<Action>, tick: nat, unit: nat) {
    match LastOrder(done, unit)
    case None => kept == if unit in before then Some(before[unit]) else None
    case Some(kind) => kept.Some? && kept.value.kind == kind && tick < kept.value.tick + 10
  }

  /** What an action leaves remembered for a unit: itself if it orders the unit and does not repeat. */
  lemma UnitRemembers(kept: Option<Attempt>, before: map<nat, Attempt>, done: seq<Action>, a: Action, tick: nat, unit: nat)
    requires RemembersUnit(kept, before, done, tick, unit)
    ensures var again := a.Order? && kept.Some? && kept.value.kind == a.kind && tick < kept.value.tick + 10;
            RemembersUnit(if a.Order? && a.unit == unit && !again then Some(Attempt(tick, a.kind)) else kept,
                          before, done + [a], tick, unit)
  {
    assert (done + [a])[..|done|] == done;
  }

  lemma ActionKeepsUnit(p: Planner, w: World, role: nat, a: Action, observation: nat, index: nat, unit: nat)
    requires role in p.game.connections && role in p.game.roles
    ensures var kept := AiPlanningRuns.Kept(p.game, role, unit);
            var again := a.Order? && kept.Some? && kept.value.kind == a.kind && p.game.tick < kept.value.tick + 10;
            AiPlanningRuns.Kept(PolicyAction(p, w, role, a, observation, index).game, role, unit) == (
              if a.Order? && a.unit == unit && !again then Some(Attempt(p.game.tick, a.kind)) else kept)
  {
    var s := p.game;
    var c := s.connections[role];
    var tried := if a.Order? then s.(connections := s.connections[role := c.(
      attempts := c.attempts[a.unit := Attempt(s.tick, a.kind)])]) else s;
    AiPlanningRuns.ActKeepsAttempts(tried, role, a, observation, index, w.answer(role, index), role, unit);
  }

  lemma OneIsRemembered(
    p: Planner, w: World, role: nat, before: map<nat, Attempt>, actions: seq<Action>, observation: nat, index: nat)
    requires role in p.game.connections && role in p.game.roles && index < |actions|
    requires Remembers(p.game, role, before, actions, index)
    ensures var q := PolicyAction(p, w, role, actions[index], observation, index);
            q.game.tick == p.game.tick && Remembers(q.game, role, before, actions, index + 1)
  {
    var s, a := p.game, actions[index];
    var q := PolicyAction(p, w, role, a, observation, index);
    assert q.game.tick == s.tick;
    assert actions[..index + 1] == actions[..index] + [a];
    forall unit ensures RemembersUnit(AiPlanningRuns.Kept(q.game, role, unit), before, actions[..index + 1], s.tick, unit) {
      UnitRemembers(AiPlanningRuns.Kept(s, role, unit), before, actions[..index], a, s.tick, unit);
      ActionKeepsUnit(p, w, role, a, observation, index, unit);
    }
  }

  lemma OneIsLogged(
    p: Planner, w: World, role: nat, before: map<nat, Attempt>, actions: seq<Action>, observation: nat, index: nat)
    requires role in p.game.connections && role in p.game.roles && index < |actions|
    requires Remembers(p.game, role, before, actions, index)
    ensures var q, a := PolicyAction(p, w, role, actions[index], observation, index), actions[index];
            q.policyLog == p.policyLog + (if a.Order? && !Repeats(before, actions, index, p.game.tick)
                                          then [Gave(Command(role, a.unit, a.kind, p.game.tick))] else [])
  {
    var s, a := p.game, actions[index];
    if a.Order? {
      assert RemembersUnit(AiPlanningRuns.Kept(s, role, a.unit), before, actions[..index], s.tick, a.unit);
    }
  }

  lemma Regroup(log: seq<Entry>, first: seq<Entry>, rest: seq<Entry>)
    ensures log + first + rest == log + (first + rest)
  {
  }

  lemma {:induction false} AllAreTried(
    p: Planner, w: World, role: nat, before: map<nat, Attempt>, actions: seq<Action>, observation: nat, index: nat)
    requires role in p.game.connections && role in p.game.roles && index <= |actions|
    requires Remembers(p.game, role, before, actions, index)
    ensures PolicyActions(p, w, role, actions, observation, index).policyLog
         == p.policyLog + Tried(before, actions, role, p.game.tick, index)
    decreases |actions| - index
  {
    if index == |actions| {
      assert p.policyLog + [] == p.policyLog;
    } else {
      var q, tick := PolicyAction(p, w, role, actions[index], observation, index), p.game.tick;
      OneIsRemembered(p, w, role, before, actions, observation, index);
      OneIsLogged(p, w, role, before, actions, observation, index);
      AllAreTried(q, w, role, before, actions, observation, index + 1);
      var rest, a := Tried(before, actions, role, tick, index + 1), actions[index];
      var first := if a.Order? && !Repeats(before, actions, index, tick) then [Gave(Command(role, a.unit, a.kind, tick))] else [];
      Regroup(p.policyLog, first, rest);
      assert Tried(before, actions, role, tick, index) == first + rest;
    }
  }

  /** A tried order goes on its way exactly if its unit is the role's and free, the game runs, and the order is
      sound and let through; the game is then given it under the plan's identifier and its place in the plan. */
  lemma TriedOrdersAreGiven(p: Planner, w: World, role: nat, unit: nat, kind: OrderKind, observation: nat, index: nat)
    requires role in p.game.connections && role in p.game.roles && Named(observation, index) !in p.game.placed
    requires var kept := AiPlanningRuns.Kept(p.game, role, unit);
             kept.None? || kept.value.kind != kind || p.game.tick >= kept.value.tick + 10
    ensures var s, answer := p.game, w.answer(role, index);
            PolicyAction(p, w, role, Order(unit, kind), observation, index).game.submissions == s.submissions + (
              if unit in s.roles[role].units && !Busy(s.traffic, unit) && s.status == Running && !s.complete
                 && answer.wellFormed && Passes(SeatsOf(s), answer)
              then [Submission(Named(observation, index), role, unit, kind, false)] else [])
  {
    var s, c, intent := p.game, p.game.connections[role], Named(observation, index);
    var tried := s.(connections := s.connections[role := c.(attempts := c.attempts[unit := Attempt(s.tick, kind)])]);
    assert Held(tried.roles) == Held(s.roles) && Played(tried.connections) == Played(s.connections);
    AgentEffects.SubmitsExactly(tried, Submission(intent, role, unit, kind, false), w.answer(role, index));
  }

  // ---- A role's turn ------------------------------------------------------------------------------------

  /** The units a role's policy plans for: those whose smallest AI role it is, unless an external controller
      is in time and has not assigned them. */
  ghost function Reach(s: State, role: nat): (units: set<nat>)
    requires role in s.roles
    ensures forall unit :: unit in units <==>
              && unit in s.roles[role].units && s.roles[role].aiControlled
              && (role in s.connections && s.connections[role].mode == External ==>
                    s.connections[role].fallback || unit in s.connections[role].assignments)
              && (forall q :: q in s.roles && s.roles[q].aiControlled && unit in s.roles[q].units ==>
                    |s.roles[role].units| < |s.roles[q].units| || (|s.roles[role].units| == |s.roles[q].units| && role <= q))
  {
    set unit | unit in s.roles[role].units && s.roles[role].aiControlled
      && (role in s.connections && s.connections[role].mode == External ==>
            s.connections[role].fallback || unit in s.connections[role].assignments)
      && (forall q :: q in s.roles && s.roles[q].aiControlled && unit in s.roles[q].units ==>
            |s.roles[role].units| < |s.roles[q].units| || (|s.roles[role].units| == |s.roles[q].units| && role <= q))
  }

  /** Not evaluated in this tick, and either never planned, or planned five ticks ago or more, or in an earlier
      tick and something newer was observed since. */
  ghost predicate PlanDue(c: Connection, tick: nat, observed: nat) {
    && c.lastEvaluationTick != Some(tick)
    && (c.lastPlanTick.None?
        || tick >= c.lastPlanTick.value + 5 || (tick != c.lastPlanTick.value && observed > c.lastObservedTick))
  }

  ghost function Plan(s: State, w: World, role: nat): seq<Action>
    requires role in s.connections && role in s.roles
  {
    if PlanDue(s.connections[role], s.tick, w.observed(role)) then w.plan(role, Reach(s, role)) else []
  }

  ghost function Log(s: State, w: World, role: nat): seq<Entry>
    requires role in s.connections && role in s.roles
  {
    Tried(s.connections[role].attempts, Plan(s, w, role), role, s.tick, 0)
  }

  lemma GivenIsReach(s: State, role: nat, taken: set<nat>)
    requires role in s.connections && role in s.roles
    requires forall unit :: unit in taken ==> !PlannerOwns(s, role, unit)
    ensures Given(s, role, taken) == Reach(s, role)
  {
    forall unit ensures unit in Given(s, role, taken) <==> unit in Reach(s, role) {
      assert unit in s.roles[role].units ==> (Controls(s, role, unit) <==> s.roles[role].aiControlled);
      assert forall q :: q in s.roles && Controls(s, q, unit) ==> s.roles[q].aiControlled && unit in s.roles[q].units;
      assert forall q :: q in s.roles && s.roles[q].aiControlled && unit in s.roles[q].units ==> Controls(s, q, unit);
    }
  }

  lemma TurnTries(p: Planner, w: World, role: nat, taken: set<nat>)
    requires role in p.game.connections && role in p.game.roles
    requires forall unit :: unit in taken ==> !PlannerOwns(p.game, role, unit)
    ensures PolicyTurn(p, w, role, taken).0.policyLog == p.policyLog + Log(p.game, w, role)
  {
    var s, c := p.game, p.game.connections[role];
    GivenIsReach(s, role, taken);
    if PlanDue(c, s.tick, w.observed(role)) {
      var q := p.(game := Planning(Evaluated(s, role), w, role));
      var actions := w.plan(role, Reach(s, role));
      assert actions[..0] == [];
      assert Remembers(q.game, role, c.attempts, actions, 0);
      AllAreTried(q, w, role, c.attempts, actions, s.nextId, 0);
    }
  }

  ghost function Logs(s: State, w: World, roles: seq<nat>): (log: seq<Entry>)
    requires forall r :: r in roles ==> r in s.connections && r in s.roles
    ensures forall e :: e in log <==> exists r :: r in roles && e in Log(s, w, r)
    decreases |roles|
  {
    if roles == [] then [] else Log(s, w, roles[0]) + Logs(s, w, roles[1..])
  }

  lemma SameLog(s: State, t: State, w: World, role: nat)
    requires role in s.connections && role in s.roles && role in t.connections
    requires t.roles == s.roles && t.tick == s.tick && t.connections[role] == s.connections[role]
    ensures Log(t, w, role) == Log(s, w, role)
  {
    assert Reach(t, role) == Reach(s, role);
  }

  /** The roles still to come are as they were, and the units taken so far are not theirs. */
  ghost predicate Untouched(s: State, p: Planner, roles: seq<nat>, taken: set<nat>) {
    && p.game.roles == s.roles && p.game.tick == s.tick
    && (forall r :: r in roles ==>
          r in s.roles && r in s.connections && r in p.game.connections && p.game.connections[r] == s.connections[r])
    && (forall i, j :: 0 <= i < j < |roles| ==> roles[i] != roles[j])
    && (forall unit, r :: unit in taken && r in roles ==> !PlannerOwns(s, r, unit))
  }

  lemma FirstTries(s: State, p: Planner, w: World, roles: seq<nat>, taken: set<nat>)
    requires roles != [] && Untouched(s, p, roles, taken)
    ensures PolicyTurn(p, w, roles[0], taken).0.policyLog == p.policyLog + Log(s, w, roles[0])
  {
    forall unit | unit in taken ensures !PlannerOwns(p.game, roles[0], unit) {
      SameOwner(s, p.game, roles[0], unit);
    }
    TurnTries(p, w, roles[0], taken);
    SameLog(s, p.game, w, roles[0]);
  }

  lemma RestUntouched(s: State, p: Planner, w: World, roles: seq<nat>, taken: set<nat>)
    requires roles != [] && Untouched(s, p, roles, taken)
    ensures var turn := PolicyTurn(p, w, roles[0], taken); Untouched(s, turn.0, roles[1..], turn.1)
  {
    var role, turn := roles[0], PolicyTurn(p, w, roles[0], taken);
    AiPlanningTicks.TurnMarksRole(p, w, role, taken);
    forall r | r in roles[1..] ensures r != role && turn.0.game.connections[r] == s.connections[r] {
      var j :| 0 <= j < |roles| - 1 && roles[1..][j] == r;
      assert roles[j + 1] == r;
    }
    forall unit, r | unit in turn.1 && r in roles[1..] ensures !PlannerOwns(s, r, unit) {
      NewlyTaken(s, p, w, role, taken, unit, r);
    }
  }

  lemma {:induction false} TurnsTry(s: State, p: Planner, w: World, roles: seq<nat>, taken: set<nat>)
    requires Untouched(s, p, roles, taken)
    ensures PolicyTurns(p, w, roles, taken).policyLog == p.policyLog + Logs(s, w, roles)
    decreases |roles|
  {
    if roles != [] {
      var turn := PolicyTurn(p, w, roles[0], taken);
      FirstTries(s, p, w, roles, taken);
      RestUntouched(s, p, w, roles, taken);
      TurnsTry(s, turn.0, w, roles[1..], turn.1);
      Regroup(p.policyLog, Log(s, w, roles[0]), Logs(s, w, roles[1..]));
    }
  }

  lemma NewlyTaken(s: State, p: Planner, w: World, role: nat, taken: set<nat>, unit: nat, r: nat)
    requires role in p.game.connections && role in p.game.roles && p.game.roles == s.roles && r != role
    requires unit in taken ==> !PlannerOwns(s, r, unit)
    requires unit in PolicyTurn(p, w, role, taken).1
    ensures !PlannerOwns(s, r, unit)
  {
    if unit !in taken {
      SameOwner(s, p.game, role, unit);
      PlannerIsUnique(s, unit);
    }
  }

  // ---- A pass -----------------------------------------------------------------------------------------

  /** The role has a policy: a deterministic controller; an external one on fallback or with a goal assigned to
      some unit; or no assignment yet but an AI in control and a goal to reach. */
  ghost predicate HasPolicy(s: State, role: nat) {
    if role in s.connections then
      match s.connections[role].mode
      case Human => false
      case Deterministic => true
      case External => s.connections[role].fallback || s.connections[role].assignments != map[]
    else
      role in s.roles && s.roles[role].aiControlled && exists goal :: goal in s.goals && goal.role == role
  }

  ghost predicate PolicyOrders(s: State, w: World, o: Command) {
    && HasPolicy(s, o.role) && o.role in s.roles && o.tick == s.tick
    && (o.role in s.connections ==> PlanDue(s.connections[o.role], s.tick, w.observed(o.role)))
    && (var before := if o.role in s.connections then s.connections[o.role].attempts else map[];
        exists i :: i >= 0 && TriedAt(before, w.plan(o.role, Reach(s, o.role)), s.tick, i, o))
  }

  lemma AdoptedReach(s: State, role: nat)
    requires role in s.roles
    ensures Reach(Adopted(s), role) == Reach(s, role)
  {
  }

  lemma AdoptedLog(s: State, w: World, role: nat, o: Command)
    requires PolicyRolesKnown(s)
    requires role in Adopted(s).connections && role in s.roles && PolicyRole(Adopted(s).connections[role])
    ensures Gave(o) in Log(Adopted(s), w, role) <==> PolicyOrders(s, w, o) && o.role == role
  {
    AdoptedReach(s, role);
    PolicyAgrees(s, role);
    var t, actions := Adopted(s), w.plan(role, Reach(s, role));
    var before := if role in s.connections then s.connections[role].attempts else map[];
    var due := role in s.connections ==> PlanDue(s.connections[role], s.tick, w.observed(role));
    assert t.connections[role].attempts == before;
    assert PlanDue(t.connections[role], s.tick, w.observed(role)) <==> due;
    assert Plan(t, w, role) == if due then actions else [];
    assert Gave(o) in Log(t, w, role) <==> o.role == role && exists i :: i >= 0 && TriedAt(before, Plan(t, w, role), s.tick, i, o);
    if o.role == role {
      assert HasPolicy(s, role) && role in s.roles;
      if due {
        assert Plan(t, w, role) == w.plan(o.role, Reach(s, o.role));
        assert Gave(o) in Log(t, w, role) ==> o.tick == s.tick;
        assert Gave(o) in Log(t, w, role) ==> PolicyOrders(s, w, o);
        assert PolicyOrders(s, w, o) ==> Gave(o) in Log(t, w, role);
      } else {
        assert Gave(o) !in Log(t, w, role);
        assert !PolicyOrders(s, w, o);
      }
    } else {
      assert Gave(o) !in Log(t, w, role);
    }
  }

  lemma PassLog(p: Planner, w: World)
    requires PolicyRolesKnown(p.game)
    ensures var adopted := Adopted(p.game);
            ProcessPolicies(p, w).policyLog == p.policyLog + Logs(adopted, w, PolicyRoles(adopted))
  {
    var adopted := Adopted(p.game);
    ByScopeIsOrdered(adopted, WithPolicy(adopted));
    TurnsTry(adopted, p.(game := adopted), w, PolicyRoles(adopted), {});
  }

  /** A pass of the policies tries exactly these orders: those in the plans of the roles that have a policy and
      whose plan is due, made for the units in their reach, except those that repeat what was just tried. */
  lemma PoliciesOrderExactly(p: Planner, w: World, o: Command)
    requires PolicyRolesKnown(p.game)
    ensures var log := ProcessPolicies(p, w).policyLog;
            && p.policyLog <= log
            && (Gave(o) in log[|p.policyLog|..] <==> PolicyOrders(p.game, w, o))
  {
    var adopted := Adopted(p.game);
    var log := Logs(adopted, w, PolicyRoles(adopted));
    PassLog(p, w);
    assert (p.policyLog + log)[|p.policyLog|..] == log;
    if o.role in adopted.connections && PolicyRole(adopted.connections[o.role]) {
      AdoptedLog(p.game, w, o.role, o);
      assert o.role in PolicyRoles(adopted);
    } else {
      PolicyAgrees(p.game, o.role);
      assert o.role !in PolicyRoles(adopted);
    }
  }

  lemma TriedIsPlanned(before: map<nat, Attempt>, actions: seq<Action>, tick: nat, i: nat, o: Command)
    requires TriedAt(before, actions, tick, i, o)
    ensures i < |actions| && actions[i] == Order(o.unit, o.kind)
  {
  }

  lemma PlannedInReach(s: State, w: World, o: Command)
    requires PlansOnlyGiven(w) && PolicyOrders(s, w, o)
    ensures o.unit in Reach(s, o.role)
  {
    var actions := w.plan(o.role, Reach(s, o.role));
    var before := if o.role in s.connections then s.connections[o.role].attempts else map[];
    var i: nat :| TriedAt(before, actions, s.tick, i, o);
    TriedIsPlanned(before, actions, s.tick, i, o);
    assert actions[i].unit in Reach(s, o.role);
  }

  lemma EntryInSuffix(log: seq<Entry>, n: nat, i: nat)
    requires n <= i < |log|
    ensures log[i] in log[n..]
  {
    assert log[n..][i - n] == log[i];
  }

  /** So if plans order only units they are made for, every order tried is to a unit whose smallest AI role the
      policy's is, and one its controller leaves to the policy. */
  lemma PoliciesStayInReach(p: Planner, w: World, i: nat)
    requires PlansOnlyGiven(w) && PolicyRolesKnown(p.game)
    requires |p.policyLog| <= i < |ProcessPolicies(p, w).policyLog| && ProcessPolicies(p, w).policyLog[i].Gave?
    ensures var o := ProcessPolicies(p, w).policyLog[i].order;
            HasPolicy(p.game, o.role) && o.role in p.game.roles && o.unit in Reach(p.game, o.role)
  {
    var log := ProcessPolicies(p, w).policyLog;
    EntryInSuffix(log, |p.policyLog|, i);
    PoliciesOrderExactly(p, w, log[i].order);
    PlannedInReach(p.game, w, log[i].order);
  }

  lemma PolicyAgrees(s: State, role: nat)
    requires PolicyRolesKnown(s)
    ensures var t := Adopted(s);
            && (role in t.connections && PolicyRole(t.connections[role]) <==> HasPolicy(s, role) && role in s.roles)
            && (role in s.connections ==> role in t.connections && t.connections[role] == s.connections[role])
            && (HasPolicy(s, role) && role !in s.connections ==>
                  t.connections[role].attempts == map[] && PlanDue(t.connections[role], s.tick, 0))
  {
  }

  // ---- What a pass leaves behind ------------------------------------------------------------------------

  /** A role with a policy is evaluated; if its plan was due, it has planned now, on what is observed now. */
  ghost predicate Marked(c: Connection, d: Connection, tick: nat, observed: nat) {
    if PlanDue(c, tick, observed)
    then d.lastEvaluationTick == Some(tick) && d.lastPlanTick == Some(tick) && d.lastObservedTick == observed
    else d == c.(lastEvaluationTick := Some(tick))
  }

  lemma ActKeepsMarks(s: State, role: nat, a: Action, observation: nat, index: nat, answer: Answer)
    requires role in s.connections && role in s.roles
    ensures var c, d := s.connections[role], Act(s, role, a, observation, index, false, answer).0.connections[role];
            d == c.(assignments := d.assignments, receipts := d.receipts)
  {
  }

  ghost predicate SameMarks(s: State, t: State, role: nat) {
    && role in s.connections && role in t.connections && t.history == s.history
    && (var d := t.connections[role];
        d == s.connections[role].(attempts := d.attempts, assignments := d.assignments, receipts := d.receipts))
  }

  lemma ActionKeepsMarks(p: Planner, w: World, role: nat, a: Action, observation: nat, index: nat)
    requires role in p.game.connections && role in p.game.roles
    ensures SameMarks(p.game, PolicyAction(p, w, role, a, observation, index).game, role)
  {
    var s, c := p.game, p.game.connections[role];
    var tried := if a.Order? then s.(connections := s.connections[role := c.(
      attempts := c.attempts[a.unit := Attempt(s.tick, a.kind)])]) else s;
    ActKeepsMarks(tried, role, a, observation, index, w.answer(role, index));
  }

  lemma {:induction false} ActionsKeepMarks(p: Planner, w: World, role: nat, actions: seq<Action>, observation: nat, index: nat)
    requires role in p.game.connections && role in p.game.roles && index <= |actions|
    ensures SameMarks(p.game, PolicyActions(p, w, role, actions, observation, index).game, role)
    decreases |actions| - index
  {
    if index < |actions| {
      ActionKeepsMarks(p, w, role, actions[index], observation, index);
      ActionsKeepMarks(PolicyAction(p, w, role, actions[index], observation, index), w, role, actions, observation, index + 1);
    }
  }

  /** Some action of the plan does not repeat what was tried before the plan. */
  ghost predicate Acts(before: map<nat, Attempt>, actions: seq<Action>, tick: nat) {
    exists i :: 0 <= i < |actions| && !(actions[i].Order? && actions[i].unit in before
      && before[actions[i].unit].kind == actions[i].kind && tick < before[actions[i].unit].tick + 10)
  }

  ghost function PlanNote(s: State, w: World, role: nat): seq<Note>
    requires role in s.connections && role in s.roles
  {
    if Acts(s.connections[role].attempts, Plan(s, w, role), s.tick) then [Note(role, NoteKind.Planned)] else []
  }

  lemma ActsExactly(p: Planner, role: nat, actions: seq<Action>)
    requires role in p.game.connections
    ensures (exists i :: 0 <= i < |actions| && !WaitsAt(p, role, actions, i))
       <==> Acts(p.game.connections[role].attempts, actions, p.game.tick)
  {
    var before, tick := p.game.connections[role].attempts, p.game.tick;
    forall i | 0 <= i < |actions|
      ensures WaitsAt(p, role, actions, i) == (actions[i].Order? && actions[i].unit in before
                && before[actions[i].unit].kind == actions[i].kind && tick < before[actions[i].unit].tick + 10)
    {
    }
    if Acts(before, actions, tick) {
      var i :| 0 <= i < |actions| && !(actions[i].Order? && actions[i].unit in before
        && before[actions[i].unit].kind == actions[i].kind && tick < before[actions[i].unit].tick + 10);
      assert !WaitsAt(p, role, actions, i);
    }
  }

  lemma PlanMarks(p: Planner, w: World, role: nat, given: set<nat>, observation: nat)
    requires role in p.game.connections && role in p.game.roles && |p.game.history| <= 100
    ensures var c, q := p.game.connections[role], PolicyPlan(p, w, role, given, observation).game;
            var d := q.connections[role];
            && d == c.(attempts := d.attempts, assignments := d.assignments, receipts := d.receipts)
            && q.history == Latest(p.game.history + (if Acts(c.attempts, w.plan(role, given), p.game.tick)
                                                     then [Note(role, NoteKind.Planned)] else []), 100)
  {
    var actions := w.plan(role, given);
    ActionsKeepMarks(p, w, role, actions, observation, 0);
    ActsExactly(p, role, actions);
    AgentEffects.NotedIsLatest(p.game.history, Note(role, NoteKind.Planned));
    assert p.game.history + [] == p.game.history;
  }

  lemma TurnMarks(p: Planner, w: World, role: nat, taken: set<nat>)
    requires role in p.game.connections && role in p.game.roles && |p.game.history| <= 100
    requires forall unit :: unit in taken ==> !PlannerOwns(p.game, role, unit)
    ensures var s, t := p.game, PolicyTurn(p, w, role, taken).0.game;
            && Marked(s.connections[role], t.connections[role], s.tick, w.observed(role))
            && t.history == Latest(s.history + PlanNote(s, w, role), 100)
  {
    var s := p.game;
    GivenIsReach(s, role, taken);
    assert s.history + [] == s.history;
    if PlanDue(s.connections[role], s.tick, w.observed(role)) {
      PlanMarks(p.(game := Planning(Evaluated(s, role), w, role)), w, role, Reach(s, role), s.nextId);
    }
  }

  ghost function PlanNotes(s: State, w: World, roles: seq<nat>): (notes: seq<Note>)
    requires forall r :: r in roles ==> r in s.connections && r in s.roles
    decreases |roles|
  {
    if roles == [] then [] else PlanNote(s, w, roles[0]) + PlanNotes(s, w, roles[1..])
  }

  lemma FirstMarks(s: State, p: Planner, w: World, roles: seq<nat>, taken: set<nat>)
    requires roles != [] && Untouched(s, p, roles, taken) && |p.game.history| <= 100
    ensures var t := PolicyTurn(p, w, roles[0], taken).0.game;
            && Marked(s.connections[roles[0]], t.connections[roles[0]], s.tick, w.observed(roles[0]))
            && t.history == Latest(p.game.history + PlanNote(s, w, roles[0]), 100)
  {
    forall unit | unit in taken ensures !PlannerOwns(p.game, roles[0], unit) {
      SameOwner(s, p.game, roles[0], unit);
    }
    TurnMarks(p, w, roles[0], taken);
    assert Reach(p.game, roles[0]) == Reach(s, roles[0]);
  }

  lemma {:induction false} TurnsMark(s: State, p: Planner, w: World, roles: seq<nat>, taken: set<nat>)
    requires Untouched(s, p, roles, taken) && |p.game.history| <= 100
    ensures var t := PolicyTurns(p, w, roles, taken).game;
            && t.history == Latest(p.game.history + PlanNotes(s, w, roles), 100)
            && (forall r :: r in roles ==>
                  r in t.connections && Marked(s.connections[r], t.connections[r], s.tick, w.observed(r)))
    decreases |roles|
  {
    if roles == [] {
      assert p.game.history + [] == p.game.history;
    } else {
      var turn := PolicyTurn(p, w, roles[0], taken);
      FirstMarks(s, p, w, roles, taken);
      RestUntouched(s, p, w, roles, taken);
      TurnsMark(s, turn.0, w, roles[1..], turn.1);
      AgentEffects.NotesJoin(
        p.game.history, PlanNote(s, w, roles[0]), PlanNotes(s, w, roles[1..]), PlanNotes(s, w, roles));
      assert roles[0] !in roles[1..];
      AiPlanningTicks.TurnsMarkRoles(turn.0, w, roles[1..], turn.1);
    }
  }

  /** After a pass every role with a policy is marked so, and the history notes, in planning order, the roles
      that tried something. */
  lemma PoliciesMarkExactly(p: Planner, w: World)
    requires PolicyRolesKnown(p.game) && |p.game.history| <= 100
    ensures var s, t := Adopted(p.game), ProcessPolicies(p, w).game;
            && t.history == Latest(p.game.history + PlanNotes(s, w, PolicyRoles(s)), 100)
            && (forall r :: r in p.game.roles && HasPolicy(p.game, r) ==>
                  && r in s.connections && (r in p.game.connections ==> s.connections[r] == p.game.connections[r])
                  && r in t.connections && Marked(s.connections[r], t.connections[r], s.tick, w.observed(r)))
  {
    var s := Adopted(p.game);
    ByScopeIsOrdered(s, WithPolicy(s));
    TurnsMark(s, p.(game := s), w, PolicyRoles(s), {});
    forall r | r in p.game.roles && HasPolicy(p.game, r) ensures r in PolicyRoles(s) {
      PolicyAgrees(p.game, r);
    }
  }
}
