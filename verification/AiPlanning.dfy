/** One pass of the server's own planners: the goal policies of crates/server/src/agents.rs and the
    patrol orders of crates/server/src/ai_orders.rs, smallest command scope first. */
module AiPlanning {
  import opened Ordered
  import opened OrderTraffic
  import opened Agents

  const RETRY_TICKS: nat := 10
  const PLAN_INTERVAL_TICKS: nat := 5
  const DEFAULT_TIMEOUT_MS: nat := 30_000

  datatype PatrolAttempt = PatrolAttempt(role: nat, tick: nat, kind: OrderKind)

  /** An order a planner decided to give, and when. */
  datatype Command = Command(role: nat, unit: nat, kind: OrderKind, tick: nat)

  /** What happened to the policies' memory of attempts: an order was planned, or some roles' connections
      were replaced and with them the memory. */
  datatype Entry = Gave(order: Command) | Forgot(roles: set<nat>)

  /** The server's planner state around the agents' part of the game; the two logs are the history of
      all orders planned by policies and by patrol. */
  datatype Planner = Planner(
    game: State, attempts: map<nat, PatrolAttempt>, policyLog: seq<Entry>, patrolLog: seq<Command>)

  /** What the pass asks of the rest of the game: the policy's actions for the units a role is given,
      its newest track's tick, what becomes of its submissions, which units a role sees as aircraft, the
      patrol order it would give, and what becomes of that. */
  datatype World = World(
    plan: (nat, set<nat>) -> seq<Action>, observed: nat -> nat, answer: (nat, nat) -> Answer,
    air: (nat, nat) -> bool, patrol: (nat, nat) -> Option<OrderKind>, sent: (nat, nat) -> Answer)

  predicate Controls(s: State, role: nat, unit: nat) {
    role in s.roles && s.roles[role].aiControlled && unit in s.roles[role].units
  }

  /** How many units a role commands. */
  function Scope(s: State, role: nat): nat
    requires role in s.roles
  {
    |s.roles[role].units|
  }

  predicate Precedes(s: State, q: nat, r: nat)
    requires q in s.roles && r in s.roles
  {
    Scope(s, q) < Scope(s, r) || (Scope(s, q) == Scope(s, r) && q <= r)
  }

  /** The AI role with the smallest command scope, then the smallest identifier, over this unit. */
  predicate PlannerOwns(s: State, role: nat, unit: nat) {
    Controls(s, role, unit) && forall q :: q in s.roles && Controls(s, q, unit) ==> Precedes(s, role, q)
  }

  function Scopes(s: State, roles: set<nat>): (sizes: set<nat>)
    requires forall r :: r in roles ==> r in s.roles
    ensures forall r :: r in roles ==> Scope(s, r) in sizes
  {
    set r | r in roles :: Scope(s, r)
  }

  function OfScope(s: State, roles: set<nat>, size: nat): (same: set<nat>)
    requires forall r :: r in roles ==> r in s.roles
    ensures forall r :: r in same <==> r in roles && Scope(s, r) == size
  {
    set r | r in roles && Scope(s, r) == size
  }

  lemma SomeOfScope(s: State, roles: set<nat>, size: nat)
    requires (forall r :: r in roles ==> r in s.roles) && size in Scopes(s, roles)
    ensures OfScope(s, roles, size) != {}
  {
    var one :| one in roles && Scope(s, one) == size;
    assert one in OfScope(s, roles, size);
  }

  /** The first of some roles: among those with the fewest units, the one with the least identifier. */
  function First(s: State, roles: set<nat>): (k: nat)
    requires roles != {} && forall r :: r in roles ==> r in s.roles
    ensures k in roles && forall r :: r in roles ==> Precedes(s, k, r)
  {
    ghost var any :| any in roles;
    assert Scope(s, any) in Scopes(s, roles);
    var least := Least(Scopes(s, roles));
    SomeOfScope(s, roles, least);
    var k := Least(OfScope(s, roles, least));
    assert k in OfScope(s, roles, least);
    assert forall r :: r in roles && Scope(s, r) == least ==> r in OfScope(s, roles, least);
    k
  }

  /** Roles in planning order. */
  function ByScope(s: State, roles: set<nat>): (ordered: seq<nat>)
    requires forall r :: r in roles ==> r in s.roles
    ensures forall r :: r in ordered <==> r in roles
    decreases |roles|
  {
    if roles == {} then []
    else
      var k := First(s, roles);
      [k] + ByScope(s, roles - {k})
  }

  // ---- Goal policies ----------------------------------------------------------------------

  predicate HasGoal(s: State, role: nat) {
    exists g :: g in s.goals && g.role == role
  }

  /** Roles the policies take over: AI roles with a goal and no assignment yet. */
  function Adopted(s: State): State {
    var adopted := set r | r in s.roles && s.roles[r].aiControlled && HasGoal(s, r) && r !in s.connections;
    s.(connections := map r | r in s.connections.Keys + adopted ::
      if r in s.connections then s.connections[r]
      else NewConnection(Deterministic, s.roles[r].generation, None, DEFAULT_TIMEOUT_MS))
  }

  predicate PolicyRole(c: Connection) {
    c.mode == Deterministic || (c.mode == External && (c.fallback || c.assignments != map[]))
  }

  /** The units a role's policy is given: those it owns, that its controller leaves to the policy, and
      that no role before it took. */
  function Given(s: State, role: nat, taken: set<nat>): set<nat>
    requires role in s.connections && role in s.roles
  {
    set unit | unit in s.roles[role].units && PlannerOwns(s, role, unit)
      && (s.connections[role].mode != External || s.connections[role].fallback || unit in s.connections[role].assignments)
      && unit !in taken
  }

  predicate PlanNotDue(c: Connection, tick: nat, observed: nat) {
    c.lastPlanTick.Some?
    && (tick == c.lastPlanTick.value
        || (SaturatingSub(tick, c.lastPlanTick.value) < PLAN_INTERVAL_TICKS && observed <= c.lastObservedTick))
  }

  predicate RepeatsTooSoon(c: Connection, a: Action, tick: nat) {
    a.Order? && a.unit in c.attempts && c.attempts[a.unit].kind == a.kind
    && SaturatingSub(tick, c.attempts[a.unit].tick) < RETRY_TICKS
  }

  predicate WaitsAt(p: Planner, role: nat, actions: seq<Action>, i: nat)
    requires role in p.game.connections && i < |actions|
  {
    RepeatsTooSoon(p.game.connections[role], actions[i], p.game.tick)
  }

  /** One action of a policy; an order repeated too soon is skipped, whatever else is tried. */
  function PolicyAction(p: Planner, w: World, role: nat, a: Action, observation: nat, index: nat): (q: Planner)
    requires role in p.game.connections && role in p.game.roles
    ensures q.game.connections.Keys == p.game.connections.Keys && q.game.roles == p.game.roles
  {
    var s := p.game;
    var c := s.connections[role];
    if RepeatsTooSoon(c, a, s.tick) then p
    else
      var tried := if a.Order? then s.(connections := s.connections[role := c.(
        attempts := c.attempts[a.unit := Attempt(s.tick, a.kind)])]) else s;
      var log := if a.Order? then p.policyLog + [Gave(Command(role, a.unit, a.kind, s.tick))] else p.policyLog;
      p.(game := Act(tried, role, a, observation, index, false, w.answer(role, index)).0, policyLog := log)
  }

  /** The policy's actions from index on. */
  function PolicyActions(p: Planner, w: World, role: nat, actions: seq<Action>, observation: nat, index: nat): (q: Planner)
    requires role in p.game.connections && role in p.game.roles && index <= |actions|
    ensures q.game.connections.Keys == p.game.connections.Keys && q.game.roles == p.game.roles
    decreases |actions| - index
  {
    if index == |actions| then p
    else PolicyActions(PolicyAction(p, w, role, actions[index], observation, index), w, role, actions, observation, index + 1)
  }

  function Evaluated(s: State, role: nat): State
    requires role in s.connections
  {
    s.(connections := s.connections[role := s.connections[role].(lastEvaluationTick := Some(s.tick))], nextId := s.nextId + 1)
  }

  function Planning(s: State, w: World, role: nat): State
    requires role in s.connections
  {
    s.(connections := s.connections[role := s.connections[role].(
      lastPlanTick := Some(s.tick), lastObservedTick := w.observed(role))])
  }

  /** Carry a due plan out and note it if anything was tried. */
  function PolicyPlan(p: Planner, w: World, role: nat, given: set<nat>, observation: nat): (q: Planner)
    requires role in p.game.connections && role in p.game.roles
    ensures q.game.connections.Keys == p.game.connections.Keys && q.game.roles == p.game.roles
  {
    var actions := w.plan(role, given);
    var q := PolicyActions(p, w, role, actions, observation, 0);
    var acted := exists i :: 0 <= i < |actions| && !WaitsAt(p, role, actions, i);
    if acted then q.(game := q.game.(history := Noted(q.game.history, Note(role, NoteKind.Planned)))) else q
  }

  /** One role's policy. The units it is given stay taken even when its plan is not due. */
  function PolicyTurn(p: Planner, w: World, role: nat, taken: set<nat>): (r: (Planner, set<nat>))
    requires role in p.game.connections && role in p.game.roles
    ensures r.0.game.connections.Keys == p.game.connections.Keys && r.0.game.roles == p.game.roles
  {
    var s := p.game;
    var c := s.connections[role];
    if c.lastEvaluationTick == Some(s.tick) then (p, taken)
    else
      var given := Given(s, role, taken);
      if PlanNotDue(c, s.tick, w.observed(role)) then (p.(game := Evaluated(s, role)), taken + given)
      else (PolicyPlan(p.(game := Planning(Evaluated(s, role), w, role)), w, role, given, s.nextId), taken + given)
  }

  function PolicyTurns(p: Planner, w: World, roles: seq<nat>, taken: set<nat>): (q: Planner)
    requires forall r :: r in roles ==> r in p.game.connections && r in p.game.roles
    ensures q.game.connections.Keys == p.game.connections.Keys && q.game.roles == p.game.roles
    decreases |roles|
  {
    if roles == [] then p
    else
      var (t, next) := PolicyTurn(p, w, roles[0], taken);
      PolicyTurns(t, w, roles[1..], next)
  }

  predicate PolicyRolesKnown(s: State) {
    forall r :: r in s.connections && s.connections[r].mode != Human ==> r in s.roles
  }

  function WithPolicy(s: State): set<nat> {
    set r | r in s.connections && PolicyRole(s.connections[r])
  }

  function PolicyRoles(s: State): seq<nat>
    requires PolicyRolesKnown(s)
  {
    ByScope(s, WithPolicy(s))
  }

  function ProcessPolicies(p: Planner, w: World): Planner
    requires PolicyRolesKnown(p.game)
  {
    var adopted := Adopted(p.game);
    PolicyTurns(p.(game := adopted), w, PolicyRoles(adopted), {})
  }

  // ---- Patrol orders ----------------------------------------------------------------------

  predicate NoAgents(s: State) {
    s.goals == {} && s.connections == map[] && s.decisions == map[] && s.history == []
  }

  predicate PatrolRole(s: State, role: nat) {
    role in s.roles && s.roles[role].aiControlled && role !in s.connections && !HasGoal(s, role)
  }

  predicate PatrolTooSoon(p: Planner, role: nat, unit: nat, kind: OrderKind) {
    unit in p.attempts && p.attempts[unit].role == role && p.attempts[unit].kind == kind
    && SaturatingSub(p.game.tick, p.attempts[unit].tick) < RETRY_TICKS
  }

  predicate Takes(s: State, w: World, role: nat, unit: nat, taken: set<nat>) {
    w.air(role, unit) && (NoAgents(s) || PlannerOwns(s, role, unit)) && unit !in taken
  }

  predicate Orders(p: Planner, w: World, role: nat, unit: nat) {
    w.patrol(role, unit).Some? && !OrderIsPending(p.game.traffic, unit) && !PatrolTooSoon(p, role, unit, w.patrol(role, unit).value)
  }

  /** The pass ends after an order if the game is stopped, by that order or before. */
  datatype Patrolled = Patrolled(planner: Planner, taken: set<nat>, stopped: bool)

  /** Give the patrol order and remember the attempt. */
  function Patrolling(p: Planner, w: World, role: nat, unit: nat): Planner
    requires w.patrol(role, unit).Some?
  {
    var s, kind := p.game, w.patrol(role, unit).value;
    var sent := Dispatch(s.traffic, SeatsOf(s), s.nextId + 1, Issued(s.nextId), unit, kind.Move?, w.sent(role, unit));
    var order := Submission(Issued(s.nextId), role, unit, kind, false);
    p.(game := Through(s, sent).(submissions := if sent.accepted then s.submissions + [order] else s.submissions),
       attempts := p.attempts[unit := PatrolAttempt(role, s.tick, kind)],
       patrolLog := p.patrolLog + [Command(role, unit, kind, s.tick)])
  }

  function PatrolUnits(p: Planner, w: World, role: nat, units: seq<nat>, taken: set<nat>): (r: Patrolled)
    ensures var g := r.planner.game; g == p.game.(nextId := g.nextId, traffic := g.traffic, submissions := g.submissions, status := g.status)
    decreases |units|
  {
    if units == [] then Patrolled(p, taken, false)
    else
      var unit := units[0];
      if !Takes(p.game, w, role, unit, taken) then PatrolUnits(p, w, role, units[1..], taken)
      else if !Orders(p, w, role, unit) then PatrolUnits(p, w, role, units[1..], taken + {unit})
      else
        var q := Patrolling(p, w, role, unit);
        if q.game.status != Running then Patrolled(q, taken + {unit}, true)
        else PatrolUnits(q, w, role, units[1..], taken + {unit})
  }

  function PatrolTurns(p: Planner, w: World, roles: seq<nat>, taken: set<nat>): (q: Planner)
    requires forall r :: r in roles ==> r in p.game.roles
    ensures q.game.roles == p.game.roles
    decreases |roles|
  {
    if roles == [] then p
    else
      var turn := PatrolUnits(p, w, roles[0], SortedKeys(p.game.roles[roles[0]].units), taken);
      if turn.stopped then turn.planner else PatrolTurns(turn.planner, w, roles[1..], turn.taken)
  }

  function PatrolRoles(s: State): seq<nat> {
    ByScope(s, set r | r in s.roles && PatrolRole(s, r))
  }

  function ProcessAiOrders(p: Planner, w: World): Planner
    requires PolicyRolesKnown(p.game)
  {
    if p.game.status != Running || p.game.complete then p
    else
      var t := ProcessPolicies(p, w);
      PatrolTurns(t, w, PatrolRoles(t.game), {})
  }
}
