/** External controllers, crates/server/src/agents.rs, over values: assignment, observation issue
    with deadlines and fallback, decisions fenced by generation, and authority changes. */
module Agents {
  import opened Ordered
  import opened OrderTraffic

  const PROTOCOL_VERSION: nat := 1
  const WORK_INTERVAL_TICKS: nat := 5
  const MAX_ACTIONS: nat := 32
  const MAX_EXPLANATION: nat := 2048
  const MAX_MODEL: nat := 200
  const RECEIPTS: nat := 64
  const HISTORY: nat := 100
  const MIN_TIMEOUT_MS: nat := 1_000
  const MAX_TIMEOUT_MS: nat := 300_000

  datatype Mode = Human | Deterministic | External
  datatype Status = Running | Paused
  /** generation is the lease generation; owned says that a player holds or reserves the role. */
  datatype Role = Role(units: set<nat>, generation: nat, aiControlled: bool, claimable: bool, owned: bool)
  datatype RoleDefinition = RoleDefinition(units: set<nat>, aiControlled: bool, claimable: bool)
  datatype OrderKind = Move(code: nat) | Engage(track: nat)
  datatype Action =
    | Order(unit: nat, kind: OrderKind)
    | SelectGoal(goal: nat, units: seq<nat>)
    | AuthorityDecision(request: nat, approve: bool)

  /** The part of an observation that decide consults. */
  datatype Observation = Observation(id: nat, generation: nat, deadlineMs: nat, tracks: set<nat>, requests: set<nat>)
  datatype View = View(tracks: set<nat>, requests: set<nat>)
  datatype Attempt = Attempt(tick: nat, kind: OrderKind)

  /** issued is the history of the observation ticks since work was last invalidated. */
  datatype Connection = Connection(
    mode: Mode, generation: nat, token: Option<nat>, timeoutMs: nat, fallback: bool,
    work: Option<Observation>, lastPlanTick: Option<nat>, lastObservedTick: nat,
    lastEvaluationTick: Option<nat>, lastWorkTick: Option<nat>,
    assignments: map<nat, nat>, attempts: map<nat, Attempt>, receipts: seq<IntentId>, issued: seq<nat>)

  datatype Decision = Decision(
    id: nat, protocol: nat, observation: nat, generation: nat, actions: seq<Action>,
    explanation: nat, model: Option<nat>)

  datatype Refusal =
    | Unauthorized | StaleGeneration | DecisionConflict | DecisionClosed | DecisionSize
    | InvalidTimeout | RoleNotFound
    | UnitScope | OrderPending | NotObserved | InvalidGoal | IntentConflict | NotRunning | Rejected
  datatype Outcome = Accepted(action: Action) | Refused(reason: Refusal)
  datatype Stored = Stored(role: nat, decision: Decision, result: seq<Outcome>)
  datatype Goal = Goal(id: nat, role: nat)
  datatype NoteKind = Assigned | TimedOut | Answered | Planned
  datatype Note = Note(role: nat, kind: NoteKind)

  /** An order handed to the game, by an external decision or by the planner, and a decision carried out: histories nothing ever erases. */
  datatype Submission = Submission(intent: IntentId, role: nat, unit: nat, kind: OrderKind, external: bool)
  /** What the game remembers of an order identifier: the first order under it, and how that went. atOnce is
      history: the order was executed in its issuer's own terminal. */
  datatype Placed = Placed(role: nat, unit: nat, kind: OrderKind, tick: nat, accepted: bool, atOnce: bool)
  datatype Applied = Applied(decision: nat, role: nat, observation: nat, generation: nat, assignment: nat, atMs: nat)

  datatype State = State(
    status: Status, complete: bool, tick: nat, roles: map<nat, Role>, goals: set<Goal>,
    connections: map<nat, Connection>, decisions: map<nat, Stored>, history: seq<Note>, nextId: nat,
    traffic: Traffic, placed: map<IntentId, Placed>, submissions: seq<Submission>, applied: seq<Applied>)

  datatype Response = Replied(result: seq<Outcome>) | Failed(reason: Refusal)

  function Noted(history: seq<Note>, note: Note): seq<Note> {
    if |history| + 1 > HISTORY then (history + [note])[1..] else history + [note]
  }

  function NewConnection(mode: Mode, generation: nat, token: Option<nat>, timeoutMs: nat): Connection {
    Connection(mode, generation, token, timeoutMs, false, None, None, 0, None, None, map[], map[], [], [])
  }

  function Invalidated(c: Connection): Connection {
    c.(work := None, lastPlanTick := None, lastEvaluationTick := None, lastWorkTick := None, issued := [])
  }

  function InvalidateWork(s: State): State {
    s.(connections := map r | r in s.connections :: Invalidated(s.connections[r]))
  }

  /** A player leaves the role, and its leases move on. */
  function Released(role: Role): Role {
    if role.owned then role.(owned := false, generation := role.generation + 1) else role
  }

  /** A player takes the role. */
  function Acquired(role: Role): Role {
    role.(owned := true, generation := role.generation + 1)
  }

  function Configure(s: State, role: nat, mode: Mode, timeoutMs: nat, token: nat): (State, Option<Refusal>) {
    if !(MIN_TIMEOUT_MS <= timeoutMs <= MAX_TIMEOUT_MS) then (s, Some(InvalidTimeout))
    else if role !in s.roles then (s, Some(RoleNotFound))
    else
      var released := Released(s.roles[role]);
      var generation := released.generation + 1;
      (s.(
        roles := s.roles[role := released.(
          generation := generation, aiControlled := mode != Human, claimable := mode == Human)],
        connections := s.connections[role :=
          NewConnection(mode, generation, if mode == External then Some(token) else None, timeoutMs)],
        history := Noted(s.history, Note(role, Assigned))), None)
  }

  function ViewOf(views: map<nat, View>, role: nat): View {
    if role in views then views[role] else View({}, {})
  }

  /** advance's first half: overdue work is withdrawn and the role falls back. */
  function Expire(s: State, role: nat, now: nat): (t: State)
    requires role in s.connections
    ensures t.connections.Keys == s.connections.Keys && t == s.(connections := t.connections, history := t.history)
  {
    var c := s.connections[role];
    if c.work.Some? && c.work.value.deadlineMs <= now then
      s.(connections := s.connections[role := c.(work := None, fallback := true)],
         history := Noted(s.history, Note(role, TimedOut)))
    else s
  }

  /** advance's second half: when nothing is open and the interval is over, new work is issued. */
  function Issue(s: State, role: nat, now: nat, views: map<nat, View>): (t: State)
    requires role in s.connections
    ensures t.connections.Keys == s.connections.Keys && t == s.(connections := t.connections, nextId := t.nextId)
  {
    var c := s.connections[role];
    if c.work.None? && (c.lastWorkTick.None? || SaturatingSub(s.tick, c.lastWorkTick.value) >= WORK_INTERVAL_TICKS) then
      var view := ViewOf(views, role);
      var shown := set r | r in view.requests && r in s.traffic.requests;
      var o := Observation(s.nextId, c.generation, SaturatingAdd(now, c.timeoutMs), view.tracks, shown);
      s.(connections := s.connections[role := c.(
           work := Some(o), lastWorkTick := Some(s.tick), issued := c.issued + [s.tick])],
         nextId := s.nextId + 1)
    else s
  }

  /** One external role's part of advance: expire overdue work, then issue new work if it is time. */
  function AdvanceRole(s: State, role: nat, now: nat, views: map<nat, View>): (t: State)
    requires role in s.connections
    ensures t == s.(connections := t.connections, history := t.history, nextId := t.nextId)
    ensures t.connections.Keys == s.connections.Keys
    ensures forall r :: r in s.connections && r != role ==> t.connections[r] == s.connections[r]
  {
    Issue(Expire(s, role, now), role, now, views)
  }

  function AdvanceRoles(s: State, roles: seq<nat>, now: nat, views: map<nat, View>): State
    requires forall r :: r in roles ==> r in s.connections
    decreases |roles|
  {
    if roles == [] then s
    else AdvanceRoles(AdvanceRole(s, roles[0], now, views), roles[1..], now, views)
  }

  function Externals(s: State): set<nat> {
    set r | r in s.connections && s.connections[r].mode == External
  }

  function ExternalRoles(s: State): (roles: seq<nat>)
    ensures forall r :: r in roles <==> r in s.connections && s.connections[r].mode == External
  {
    SortedKeys(Externals(s))
  }

  function Advance(s: State, now: nat, views: map<nat, View>): State {
    if s.status != Running || s.complete then InvalidateWork(s)
    else AdvanceRoles(s, ExternalRoles(s), now, views)
  }

  function Holders(s: State, token: nat): set<nat> {
    set r | r in s.connections && s.connections[r].mode == External && s.connections[r].token == Some(token)
  }

  /** The role a credential controls, if any. */
  function Authenticate(s: State, token: nat): Option<nat> {
    if Holders(s, token) == {} then None else Some(Least(Holders(s, token)))
  }

  predicate Visible(o: Observation, a: Action) {
    match a
    case AuthorityDecision(request, _) => request in o.requests
    case Order(_, Engage(track)) => track in o.tracks
    case _ => true
  }

  function Pushed(receipts: seq<IntentId>, intent: IntentId): seq<IntentId> {
    if |receipts| + 1 > RECEIPTS then (receipts + [intent])[1..] else receipts + [intent]
  }

  function WithGoal(assignments: map<nat, nat>, units: seq<nat>, goal: nat): map<nat, nat>
    decreases |units|
  {
    if units == [] then assignments else WithGoal(assignments[units[0] := goal], units[1..], goal)
  }

  /** Roles for submitting orders and deciding requests: those there are, and those someone plays. */
  function SeatsOf(s: State): Seats {
    Seats(s.roles.Keys, Held(s.roles) + Played(s.connections))
  }

  function Held(roles: map<nat, Role>): set<nat> {
    set r | r in roles && roles[r].owned
  }

  function Played(connections: map<nat, Connection>): set<nat> {
    set r | r in connections && connections[r].mode != Human
  }

  /** The game after something was sent. */
  function Through(s: State, sent: Sent): State {
    s.(traffic := sent.traffic, nextId := sent.next, status := if sent.halted then Paused else s.status)
  }

  predicate SameOrder(p: Placed, order: Submission, tick: nat) {
    p.role == order.role && p.unit == order.unit && p.kind == order.kind && p.tick == tick
  }

  /** Submit an order under an identifier. A used identifier gets the answer of its first order if that was
      the same order in the same tick, and a refusal otherwise; in a stopped game, and for a malformed order,
      none is used up. */
  function Submit(s: State, order: Submission, answer: Answer): (r: (State, Option<Refusal>))
    ensures r.0 == s.(status := r.0.status, nextId := r.0.nextId, traffic := r.0.traffic, placed := r.0.placed,
                      submissions := r.0.submissions)
  {
    if order.intent in s.placed then
      var first := s.placed[order.intent];
      (s, if !SameOrder(first, order, s.tick) then Some(IntentConflict) else if first.accepted then None else Some(Rejected))
    else if s.status != Running || s.complete then (s, Some(NotRunning))
    else if !answer.wellFormed then (s, Some(Rejected))
    else
      var sent := Dispatch(s.traffic, SeatsOf(s), s.nextId, order.intent, order.unit, order.kind.Move?, answer);
      var placed := Placed(order.role, order.unit, order.kind, s.tick, sent.accepted, AtOnce(answer));
      var t := Through(s, sent).(placed := s.placed[order.intent := placed]);
      if sent.accepted then (t.(submissions := s.submissions + [order]), None) else (t, Some(Rejected))
  }

  /** Carry out one action of a role under a namespace for the order's identifier. */
  function Act(s: State, role: nat, a: Action, namespace: nat, index: nat, external: bool, answer: Answer): (r: (State, Outcome))
    requires role in s.connections && role in s.roles
    ensures r.0.connections.Keys == s.connections.Keys
    ensures r.0 == s.(status := r.0.status, nextId := r.0.nextId, traffic := r.0.traffic, connections := r.0.connections,
                      placed := r.0.placed, submissions := r.0.submissions)
  {
    var c := s.connections[role];
    match a
    case Order(unit, kind) =>
      if unit !in s.roles[role].units then (s, Refused(UnitScope))
      else if Busy(s.traffic, unit) then (s, Refused(OrderPending))
      else
        var intent := Named(namespace, index);
        var (t, refusal) := Submit(s, Submission(intent, role, unit, kind, external), answer);
        if refusal.Some? then (t, Refused(refusal.value))
        else (t.(connections := t.connections[role := c.(receipts := Pushed(c.receipts, intent))]), Accepted(a))
    case SelectGoal(goal, units) =>
      if Goal(goal, role) !in s.goals || exists unit :: unit in units && unit !in s.roles[role].units
      then (s, Refused(InvalidGoal))
      else (s.(connections := s.connections[role := c.(assignments := WithGoal(c.assignments, units, goal))]), Accepted(a))
    case AuthorityDecision(request, approve) =>
      var sent := Resolve(s.traffic, SeatsOf(s), s.nextId, role, request, approve, answer.sending);
      (Through(s, sent), if sent.accepted then Accepted(a) else Refused(Rejected))
  }

  /** One action of an accepted decision: refused if it refers to what the observation did not show;
      an accepted order ends its unit's goal assignment. */
  function DecideOne(s: State, role: nat, o: Observation, a: Action, namespace: nat, index: nat, answer: Answer): (r: (State, Outcome))
    requires role in s.connections && role in s.roles
  {
    if !Visible(o, a) then (s, Refused(NotObserved))
    else
      var (t, outcome) := Act(s, role, a, namespace, index, true, answer);
      if outcome.Accepted? && a.Order? then
        (t.(connections := t.connections[role := t.connections[role].(
            assignments := t.connections[role].assignments - {a.unit})]), outcome)
      else (t, outcome)
  }

  function AnswerAt(answers: seq<Answer>, index: nat): Answer {
    if index < |answers| then answers[index] else Answer(true, Direct, Queued)
  }

  function DecideAll(s: State, role: nat, o: Observation, d: Decision, index: nat, answers: seq<Answer>): (r: (State, seq<Outcome>))
    requires role in s.connections && role in s.roles && index <= |d.actions|
    ensures r.0.connections.Keys == s.connections.Keys && r.0.roles == s.roles
    ensures |r.1| == |d.actions| - index
    decreases |d.actions| - index
  {
    if index == |d.actions| then (s, [])
    else
      var (t, outcome) := DecideOne(s, role, o, d.actions[index], d.id, index, AnswerAt(answers, index));
      var (u, rest) := DecideAll(t, role, o, d, index + 1, answers);
      (u, [outcome] + rest)
  }

  predicate TooLarge(d: Decision) {
    |d.actions| > MAX_ACTIONS || d.explanation > MAX_EXPLANATION || (d.model.Some? && d.model.value > MAX_MODEL)
  }

  predicate Open(s: State, role: nat, observation: nat, now: nat) {
    && s.status == Running && !s.complete && role in s.connections
    && s.connections[role].work.Some?
    && s.connections[role].work.value.id == observation
    && s.connections[role].work.value.deadlineMs > now
  }

  function Decide(s: State, token: nat, d: Decision, now: nat, answers: seq<Answer>): (State, Response)
    requires forall r :: r in s.connections && s.connections[r].mode == External ==> r in s.roles
  {
    var held := Authenticate(s, token);
    if held.None? then (s, Failed(Unauthorized))
    else
      var role := held.value;
      var c := s.connections[role];
      if d.protocol != PROTOCOL_VERSION || d.generation != c.generation then (s, Failed(StaleGeneration))
      else if d.id in s.decisions then
        if s.decisions[d.id].role == role && s.decisions[d.id].decision == d
        then (s, Replied(s.decisions[d.id].result)) else (s, Failed(DecisionConflict))
      else if !Open(s, role, d.observation, now) then (s, Failed(DecisionClosed))
      else if TooLarge(d) then (s, Failed(DecisionSize))
      else
        var (t, result) := DecideAll(s, role, c.work.value, d, 0, answers);
        (t.(connections := t.connections[role := t.connections[role].(work := None, fallback := false)],
            history := Noted(t.history, Note(role, Answered)),
            decisions := t.decisions[d.id := Stored(role, d, result)],
            applied := t.applied + [Applied(d.id, role, d.observation, d.generation, c.generation, now)]),
         Replied(result))
  }

  /** The table of roles an authority edit installs: units and control come from the definitions; kept
      roles keep their holder and lease generation, new ones start at zero. */
  function NewRoles(s: State, definitions: map<nat, RoleDefinition>): map<nat, Role> {
    map r | r in definitions ::
      var d := definitions[r];
      if r in s.roles then s.roles[r].(units := d.units, aiControlled := d.aiControlled, claimable := d.claimable)
      else Role(d.units, 0, d.aiControlled, d.claimable, false)
  }

  function ReassignedRole(roles: map<nat, Role>, connections: map<nat, Connection>, r: nat): Role
    requires r in roles
  {
    if r !in connections then roles[r]
    else
      var ai := connections[r].mode != Human;
      roles[r].(aiControlled := ai, claimable := !ai,
                generation := roles[r].generation + (if ai then 1 else 0))
  }

  function Reassigned(roles: map<nat, Role>, r: nat, c: Connection): Connection {
    if r !in roles then Invalidated(c)
    else
      Invalidated(c).(
        generation := if c.mode != Human then roles[r].generation + 1 else c.generation,
        assignments := map unit | unit in c.assignments && unit in roles[r].units :: c.assignments[unit])
  }

  /** authority_changed, on the role table the edit installed. */
  function AuthorityChanged(s: State): State {
    s.(roles := map r | r in s.roles :: ReassignedRole(s.roles, s.connections, r),
       connections := map r | r in s.connections :: Reassigned(s.roles, r, s.connections[r]))
  }

  function EditAuthority(s: State, definitions: map<nat, RoleDefinition>): State {
    AuthorityChanged(s.(roles := NewRoles(s, definitions)))
  }

  /** A role's goal assignments name only units it commands. */
  ghost predicate AssignmentsInScope(s: State) {
    forall r :: r in s.connections && r in s.roles ==> s.connections[r].assignments.Keys <= s.roles[r].units
  }

  /** What the deterministic planner may touch here. Module AiPlanningFrame proves that it keeps to it. */
  ghost predicate PlannerFrame(s: State, t: State) {
    && (t.status == s.status || t.status == Paused) && t.complete == s.complete && t.tick == s.tick && t.roles == s.roles
    && t.goals == s.goals && t.decisions == s.decisions && t.applied == s.applied && t.nextId >= s.nextId
    && (Numbered(s.traffic, s.nextId) ==> Numbered(t.traffic, t.nextId))
    && |t.history| <= HISTORY && (AssignmentsInScope(s) ==> AssignmentsInScope(t))
    && SubmissionsFrame(s, t) && PlacedFrame(s, t) && ConnectionsFrame(s, t)
  }

  /** Its orders are its own, under identifiers not used before and all different. */
  ghost predicate SubmissionsFrame(s: State, t: State) {
    && s.submissions <= t.submissions
    && (forall i :: |s.submissions| <= i < |t.submissions| ==>
          !t.submissions[i].external && NewlyNumbered(s, t, t.submissions[i].intent))
    && (forall i, j :: |s.submissions| <= i < j < |t.submissions| ==> t.submissions[i].intent != t.submissions[j].intent)
  }

  ghost predicate PlacedFrame(s: State, t: State) {
    && s.placed.Keys <= t.placed.Keys && (forall id :: id in s.placed ==> t.placed[id] == s.placed[id])
    && (forall id :: id in t.placed && id !in s.placed ==> id.Named? && id.namespace < t.nextId)
  }

  ghost predicate ConnectionsFrame(s: State, t: State) {
    && s.connections.Keys <= t.connections.Keys
    && (forall r :: r in s.connections ==> PlannerKeeps(s.connections[r], t.connections[r]))
    && (forall r :: r in t.connections && r !in s.connections ==>
          r in s.roles && s.roles[r].aiControlled
          && PlannerKeeps(NewConnection(Deterministic, s.roles[r].generation, None, 30_000), t.connections[r]))
  }

  /** An identifier first used between s and t: recorded then, or issued then. */
  ghost predicate NewlyNumbered(s: State, t: State, intent: IntentId) {
    if intent.Named? then intent !in s.placed && intent in t.placed else s.nextId <= intent.id < t.nextId
  }

  ghost predicate PlannerKeeps(c: Connection, d: Connection) {
    d == c.(lastPlanTick := d.lastPlanTick, lastObservedTick := d.lastObservedTick,
            lastEvaluationTick := d.lastEvaluationTick, attempts := d.attempts, receipts := d.receipts,
            assignments := d.assignments)
  }

  /** SetStatus is a request to pause or resume, Halt a pause that withdraws nothing: some other message could
      not be written or its profile is missing. TrafficStep is whatever else happens to orders and requests:
      deliveries, losses, other players' orders and decisions. */
  datatype Step =
    | Tick
    | Complete
    | SetStatus(status: Status)
    | Halt
    | TrafficStep(traffic: Traffic, nextId: nat)
    | AcquireStep(role: nat)
    | ReleaseStep(role: nat)
    | ConfigureStep(role: nat, mode: Mode, timeoutMs: nat, token: nat)
    | AdvanceStep(now: nat, views: map<nat, View>)
    | DecideStep(token: nat, decision: Decision, now: nat, answers: seq<Answer>)
    | EditStep(definitions: map<nat, RoleDefinition>)
    | PlannerStep(planned: State)

  /** A credential is fresh when it is made; an edit may not drop a role that a player holds or an AI
      controls; only a claimable role no AI controls is acquired. */
  ghost predicate Enabled(s: State, step: Step) {
    match step
    case ConfigureStep(_, _, _, token) => forall r :: r in s.connections ==> s.connections[r].token != Some(token)
    case EditStep(definitions) => forall r :: r in s.roles && (s.roles[r].aiControlled || s.roles[r].owned) ==> r in definitions
    case AcquireStep(role) => role in s.roles && !s.roles[role].aiControlled && s.roles[role].claimable
    case ReleaseStep(role) => role in s.roles
    case DecideStep(_, _, _, _) => forall r :: r in s.connections && s.connections[r].mode == External ==> r in s.roles
    case PlannerStep(planned) => PlannerFrame(s, planned)
    case TrafficStep(traffic, nextId) => s.nextId <= nextId && Numbered(traffic, nextId)
    case _ => true
  }

  ghost function Apply(s: State, step: Step): State
    requires Enabled(s, step)
  {
    match step
    case Tick => s.(tick := s.tick + 1)
    case Complete => s.(complete := true)
    case SetStatus(status) => if status == s.status then s else InvalidateWork(s).(status := status)
    case Halt => s.(status := Paused)
    case TrafficStep(traffic, nextId) => s.(traffic := traffic, nextId := nextId)
    case AcquireStep(role) => s.(roles := s.roles[role := Acquired(s.roles[role])])
    case ReleaseStep(role) => s.(roles := s.roles[role := Released(s.roles[role])])
    case ConfigureStep(role, mode, timeoutMs, token) => Configure(s, role, mode, timeoutMs, token).0
    case AdvanceStep(now, views) => Advance(s, now, views)
    case DecideStep(token, decision, now, answers) => Decide(s, token, decision, now, answers).0
    case EditStep(definitions) => EditAuthority(s, definitions)
    case PlannerStep(planned) => planned
  }

  ghost predicate Valid(s: State, steps: seq<Step>)
    decreases |steps|
  {
    steps == [] || (Enabled(s, steps[0]) && Valid(Apply(s, steps[0]), steps[1..]))
  }

  ghost function Run(s: State, steps: seq<Step>): State
    requires Valid(s, steps)
    decreases |steps|
  {
    if steps == [] then s else Run(Apply(s, steps[0]), steps[1..])
  }

  ghost predicate Fresh(s: State) {
    && s.connections == map[] && s.decisions == map[] && s.history == []
    && s.traffic == Traffic(map[], map[]) && s.placed == map[] && s.submissions == [] && s.applied == []
  }
}
