/** Pacing of the server's planners over whole runs: passes in any number, with anything between them. */
module AiPlanningRuns {
  import opened Ordered
  import opened OrderTraffic
  import opened Agents
  import opened AiPlanning

  /** The last order a role's policy gave a unit, unless the role's connection was replaced since. */
  ghost function LastPolicy(log: seq<Entry>, role: nat, unit: nat): Option<Attempt> {
    if log == [] then None
    else
      match log[|log| - 1]
      case Forgot(roles) => if role in roles then None else LastPolicy(log[..|log| - 1], role, unit)
      case Gave(o) =>
        if o.role == role && o.unit == unit then Some(Attempt(o.tick, o.kind))
        else LastPolicy(log[..|log| - 1], role, unit)
  }

  /** The last patrol order a unit was given. */
  ghost function LastPatrol(log: seq<Command>, unit: nat): Option<PatrolAttempt> {
    if log == [] then None
    else
      var o := log[|log| - 1];
      if o.unit == unit then Some(PatrolAttempt(o.role, o.tick, o.kind)) else LastPatrol(log[..|log| - 1], unit)
  }

  ghost predicate PolicyPacedAt(log: seq<Entry>, j: int)
    requires 0 <= j < |log| && log[j].Gave?
  {
    var o := log[j].order;
    var last := LastPolicy(log[..j], o.role, o.unit);
    last.Some? && last.value.kind == o.kind ==> o.tick >= last.value.tick + RETRY_TICKS
  }

  ghost predicate PatrolPacedAt(log: seq<Command>, j: int)
    requires 0 <= j < |log|
  {
    var last := LastPatrol(log[..j], log[j].unit);
    last.Some? && last.value.role == log[j].role && last.value.kind == log[j].kind ==>
      log[j].tick >= last.value.tick + RETRY_TICKS
  }

  ghost predicate PolicyPaced(log: seq<Entry>) {
    forall j :: 0 <= j < |log| && log[j].Gave? ==> PolicyPacedAt(log, j)
  }

  ghost predicate PatrolPaced(log: seq<Command>) {
    forall j :: 0 <= j < |log| ==> PatrolPacedAt(log, j)
  }

  // ---- The attempts the server keeps are the last ones of the logs -----------------------------

  ghost function Kept(s: State, role: nat, unit: nat): Option<Attempt> {
    if role in s.connections && unit in s.connections[role].attempts then Some(s.connections[role].attempts[unit]) else None
  }

  ghost function KeptPatrol(p: Planner, unit: nat): Option<PatrolAttempt> {
    if unit in p.attempts then Some(p.attempts[unit]) else None
  }

  ghost predicate PolicyRemembered(p: Planner) {
    forall role, unit :: Kept(p.game, role, unit) == LastPolicy(p.policyLog, role, unit)
  }

  ghost predicate PatrolRemembered(p: Planner) {
    forall unit :: KeptPatrol(p, unit) == LastPatrol(p.patrolLog, unit)
  }

  ghost predicate Inv(p: Planner) {
    PolicyRemembered(p) && PolicyPaced(p.policyLog) && PatrolRemembered(p) && PatrolPaced(p.patrolLog)
  }

  lemma PolicyPacedGrows(log: seq<Entry>, entry: Entry)
    requires PolicyPaced(log)
    requires entry.Gave? ==>
      var last := LastPolicy(log, entry.order.role, entry.order.unit);
      last.Some? && last.value.kind == entry.order.kind ==> entry.order.tick >= last.value.tick + RETRY_TICKS
    ensures PolicyPaced(log + [entry])
  {
    var grown := log + [entry];
    forall j | 0 <= j < |grown| && grown[j].Gave? ensures PolicyPacedAt(grown, j) {
      assert grown[..j] == log[..j];
      if j < |log| {
        assert PolicyPacedAt(log, j);
      } else {
        assert log[..j] == log;
      }
    }
  }

  lemma PatrolPacedGrows(log: seq<Command>, o: Command)
    requires PatrolPaced(log)
    requires
      var last := LastPatrol(log, o.unit);
      last.Some? && last.value.role == o.role && last.value.kind == o.kind ==> o.tick >= last.value.tick + RETRY_TICKS
    ensures PatrolPaced(log + [o])
  {
    var grown := log + [o];
    forall j | 0 <= j < |grown| ensures PatrolPacedAt(grown, j) {
      assert grown[..j] == log[..j];
      if j < |log| {
        assert PatrolPacedAt(log, j);
      } else {
        assert log[..j] == log;
      }
    }
  }

  lemma PolicyLogGrows(log: seq<Entry>, entry: Entry, role: nat, unit: nat)
    ensures LastPolicy(log + [entry], role, unit) ==
      match entry
      case Forgot(roles) => if role in roles then None else LastPolicy(log, role, unit)
      case Gave(o) => if o.role == role && o.unit == unit then Some(Attempt(o.tick, o.kind)) else LastPolicy(log, role, unit)
  {
    assert (log + [entry])[..|log|] == log;
  }

  lemma ActKeepsAttempts(s: State, role: nat, a: Action, observation: nat, index: nat, answer: Answer, r: nat, unit: nat)
    requires role in s.connections && role in s.roles
    ensures Kept(Act(s, role, a, observation, index, false, answer).0, r, unit) == Kept(s, r, unit)
  {
  }

  lemma ActionPaced(p: Planner, w: World, role: nat, a: Action, observation: nat, index: nat)
    requires role in p.game.connections && role in p.game.roles && Inv(p)
    ensures Inv(PolicyAction(p, w, role, a, observation, index))
  {
    var s := p.game;
    var c := s.connections[role];
    var q := PolicyAction(p, w, role, a, observation, index);
    if !RepeatsTooSoon(c, a, s.tick) {
      var tried := if a.Order? then s.(connections := s.connections[role := c.(
        attempts := c.attempts[a.unit := Attempt(s.tick, a.kind)])]) else s;
      if a.Order? {
        assert Kept(s, role, a.unit) == LastPolicy(p.policyLog, role, a.unit);
        PolicyPacedGrows(p.policyLog, Gave(Command(role, a.unit, a.kind, s.tick)));
      }
      forall r, unit ensures Kept(q.game, r, unit) == LastPolicy(q.policyLog, r, unit) {
        ActKeepsAttempts(tried, role, a, observation, index, w.answer(role, index), r, unit);
        assert Kept(s, r, unit) == LastPolicy(p.policyLog, r, unit);
        if a.Order? {
          PolicyLogGrows(p.policyLog, Gave(Command(role, a.unit, a.kind, s.tick)), r, unit);
        }
      }
      assert q.attempts == p.attempts && q.patrolLog == p.patrolLog;
      assert forall unit :: KeptPatrol(q, unit) == KeptPatrol(p, unit);
    }
  }

  lemma {:induction false} ActionsPaced(p: Planner, w: World, role: nat, actions: seq<Action>, observation: nat, index: nat)
    requires role in p.game.connections && role in p.game.roles && index <= |actions| && Inv(p)
    ensures Inv(PolicyActions(p, w, role, actions, observation, index))
    decreases |actions| - index
  {
    if index < |actions| {
      ActionPaced(p, w, role, actions[index], observation, index);
      ActionsPaced(PolicyAction(p, w, role, actions[index], observation, index), w, role, actions, observation, index + 1);
    }
  }

  /** A change of the game between orders that leaves the remembered attempts alone. */
  lemma OtherChange(p: Planner, t: State)
    requires Inv(p) && forall r, unit :: Kept(t, r, unit) == Kept(p.game, r, unit)
    ensures Inv(p.(game := t))
  {
    var q := p.(game := t);
    forall r, unit ensures Kept(q.game, r, unit) == LastPolicy(q.policyLog, r, unit) {
      assert Kept(p.game, r, unit) == LastPolicy(p.policyLog, r, unit);
    }
    assert forall unit :: KeptPatrol(q, unit) == KeptPatrol(p, unit);
  }

  lemma TurnPaced(p: Planner, w: World, role: nat, taken: set<nat>)
    requires role in p.game.connections && role in p.game.roles && Inv(p)
    ensures Inv(PolicyTurn(p, w, role, taken).0)
  {
    var s := p.game;
    var planning := Planning(Evaluated(s, role), w, role);
    var given := Given(s, role, taken);
    OtherChange(p, Evaluated(s, role));
    OtherChange(p, planning);
    var q := PolicyActions(p.(game := planning), w, role, w.plan(role, given), s.nextId, 0);
    ActionsPaced(p.(game := planning), w, role, w.plan(role, given), s.nextId, 0);
    OtherChange(q, q.game.(history := Noted(q.game.history, Note(role, NoteKind.Planned))));
  }

  lemma {:induction false} TurnsPaced(p: Planner, w: World, roles: seq<nat>, taken: set<nat>)
    requires (forall r :: r in roles ==> r in p.game.connections && r in p.game.roles) && Inv(p)
    ensures Inv(PolicyTurns(p, w, roles, taken))
    decreases |roles|
  {
    if roles != [] {
      TurnPaced(p, w, roles[0], taken);
      var turn := PolicyTurn(p, w, roles[0], taken);
      TurnsPaced(turn.0, w, roles[1..], turn.1);
    }
  }

  lemma PatrollingPaced(p: Planner, w: World, role: nat, unit: nat)
    requires Inv(p) && Orders(p, w, role, unit)
    ensures Inv(Patrolling(p, w, role, unit))
  {
    var q := Patrolling(p, w, role, unit);
    var o := Command(role, unit, w.patrol(role, unit).value, p.game.tick);
    assert KeptPatrol(p, unit) == LastPatrol(p.patrolLog, unit);
    PatrolPacedGrows(p.patrolLog, o);
    assert (p.patrolLog + [o])[..|p.patrolLog|] == p.patrolLog;
    forall u ensures KeptPatrol(q, u) == LastPatrol(q.patrolLog, u) {
      assert KeptPatrol(p, u) == LastPatrol(p.patrolLog, u);
    }
    forall r, u ensures Kept(q.game, r, u) == LastPolicy(q.policyLog, r, u) {
      assert Kept(p.game, r, u) == LastPolicy(p.policyLog, r, u);
    }
  }

  lemma {:induction false} UnitsPaced(p: Planner, w: World, role: nat, units: seq<nat>, taken: set<nat>)
    requires Inv(p)
    ensures Inv(PatrolUnits(p, w, role, units, taken).planner)
    decreases |units|
  {
    if units != [] {
      var unit := units[0];
      if !Takes(p.game, w, role, unit, taken) {
        UnitsPaced(p, w, role, units[1..], taken);
      } else if !Orders(p, w, role, unit) {
        UnitsPaced(p, w, role, units[1..], taken + {unit});
      } else {
        PatrollingPaced(p, w, role, unit);
        if Patrolling(p, w, role, unit).game.status == Running {
          UnitsPaced(Patrolling(p, w, role, unit), w, role, units[1..], taken + {unit});
        }
      }
    }
  }

  lemma {:induction false} PatrolTurnsPaced(p: Planner, w: World, roles: seq<nat>, taken: set<nat>)
    requires (forall r :: r in roles ==> r in p.game.roles) && Inv(p)
    ensures Inv(PatrolTurns(p, w, roles, taken))
    decreases |roles|
  {
    if roles != [] {
      var units := SortedKeys(p.game.roles[roles[0]].units);
      UnitsPaced(p, w, roles[0], units, taken);
      var turn := PatrolUnits(p, w, roles[0], units, taken);
      if !turn.stopped {
        PatrolTurnsPaced(turn.planner, w, roles[1..], turn.taken);
      }
    }
  }

  lemma PassPaced(p: Planner, w: World)
    requires Inv(p) && PolicyRolesKnown(p.game)
    ensures Inv(ProcessAiOrders(p, w))
  {
    if p.game.status == Running && !p.game.complete {
      var adopted := Adopted(p.game);
      OtherChange(p, adopted);
      TurnsPaced(p.(game := adopted), w, PolicyRoles(adopted), {});
      var t := ProcessPolicies(p, w);
      PatrolTurnsPaced(t, w, PatrolRoles(t.game), {});
    }
  }

  // ---- Runs ---------------------------------------------------------------------------------------

  /** A pass, or anything else that happens to the game. */
  datatype Step = Pass(world: World) | Elsewhere(game: State, forgotten: set<nat>)

  /** Elsewhere, only replaced connections lose their attempts, and they start without any. */
  ghost predicate Enabled(p: Planner, step: Step) {
    match step
    case Pass(_) => PolicyRolesKnown(p.game)
    case Elsewhere(t, forgotten) =>
      forall r, unit :: Kept(t, r, unit) == if r in forgotten then None else Kept(p.game, r, unit)
  }

  ghost function After(p: Planner, step: Step): Planner
    requires Enabled(p, step)
  {
    match step
    case Pass(w) => ProcessAiOrders(p, w)
    case Elsewhere(t, forgotten) => p.(game := t, policyLog := p.policyLog + [Forgot(forgotten)])
  }

  ghost predicate Valid(p: Planner, steps: seq<Step>)
    decreases |steps|
  {
    steps == [] || (Enabled(p, steps[0]) && Valid(After(p, steps[0]), steps[1..]))
  }

  ghost function Run(p: Planner, steps: seq<Step>): Planner
    requires Valid(p, steps)
    decreases |steps|
  {
    if steps == [] then p else Run(After(p, steps[0]), steps[1..])
  }

  lemma ElsewhereKeepsInv(p: Planner, t: State, forgotten: set<nat>)
    requires Inv(p) && Enabled(p, Elsewhere(t, forgotten))
    ensures Inv(After(p, Elsewhere(t, forgotten)))
  {
    var q := After(p, Elsewhere(t, forgotten));
    PolicyPacedGrows(p.policyLog, Forgot(forgotten));
    forall r, unit ensures Kept(q.game, r, unit) == LastPolicy(q.policyLog, r, unit) {
      PolicyLogGrows(p.policyLog, Forgot(forgotten), r, unit);
      assert Kept(p.game, r, unit) == LastPolicy(p.policyLog, r, unit);
    }
    assert forall unit :: KeptPatrol(q, unit) == KeptPatrol(p, unit);
  }

  lemma {:induction false} RunKeepsInv(p: Planner, steps: seq<Step>)
    requires Inv(p) && Valid(p, steps)
    ensures Inv(Run(p, steps))
    decreases |steps|
  {
    if steps != [] {
      match steps[0] {
        case Pass(w) => PassPaced(p, w);
        case Elsewhere(t, forgotten) => ElsewhereKeepsInv(p, t, forgotten);
      }
      RunKeepsInv(After(p, steps[0]), steps[1..]);
    }
  }

  ghost predicate Unused(p: Planner) {
    && p.attempts == map[] && p.policyLog == [] && p.patrolLog == []
    && forall r :: r in p.game.connections ==> p.game.connections[r].attempts == map[]
  }

  lemma UnusedIsPaced(p: Planner)
    requires Unused(p)
    ensures Inv(p)
  {
  }

  /** In every run from an unused planner, an order of the kind last given to the unit, by the same role's
      policy or by the same role's patrol, follows ten ticks or more after it. */
  lemma RepeatsWait(p: Planner, steps: seq<Step>)
    requires Unused(p) && Valid(p, steps)
    ensures PolicyPaced(Run(p, steps).policyLog) && PatrolPaced(Run(p, steps).patrolLog)
  {
    UnusedIsPaced(p);
    RunKeepsInv(p, steps);
  }

  /** Of the controllers' own steps only a new assignment forgets attempts, those of its role. */
  lemma ControllersKeepAttempts(p: Planner, step: Agents.Step)
    requires !step.PlannerStep? && Agents.Enabled(p.game, step)
    ensures Enabled(p, Elsewhere(Agents.Apply(p.game, step), if step.ConfigureStep?
                    && Configure(p.game, step.role, step.mode, step.timeoutMs, step.token).1.None? then {step.role} else {}))
  {
    match step
    case AdvanceStep(now, views) =>
      if p.game.status == Running && !p.game.complete {
        AdvanceKeepsAttempts(p.game, ExternalRoles(p.game), now, views);
      }
    case DecideStep(token, d, now, answers) =>
      DecideKeepsAttempts(p.game, token, d, now, answers);
    case _ =>
  }

  lemma {:induction false} AdvanceKeepsAttempts(s: State, roles: seq<nat>, now: nat, views: map<nat, View>)
    requires forall r :: r in roles ==> r in s.connections
    ensures forall r, unit :: Kept(AdvanceRoles(s, roles, now, views), r, unit) == Kept(s, r, unit)
    decreases |roles|
  {
    if roles != [] {
      var t := AdvanceRole(s, roles[0], now, views);
      assert forall r, unit :: Kept(t, r, unit) == Kept(s, r, unit);
      AdvanceKeepsAttempts(t, roles[1..], now, views);
    }
  }

  lemma {:induction false} DecideAllKeepsAttempts(
    s: State, role: nat, o: Observation, d: Decision, index: nat, answers: seq<Answer>)
    requires role in s.connections && role in s.roles && index <= |d.actions|
    ensures forall r, unit :: Kept(DecideAll(s, role, o, d, index, answers).0, r, unit) == Kept(s, r, unit)
    decreases |d.actions| - index
  {
    if index < |d.actions| {
      var t := DecideOne(s, role, o, d.actions[index], d.id, index, AnswerAt(answers, index)).0;
      assert forall r, unit :: Kept(t, r, unit) == Kept(s, r, unit);
      DecideAllKeepsAttempts(t, role, o, d, index + 1, answers);
    }
  }

  lemma DecideKeepsAttempts(s: State, token: nat, d: Decision, now: nat, answers: seq<Answer>)
    requires forall r :: r in s.connections && s.connections[r].mode == External ==> r in s.roles
    ensures forall r, unit :: Kept(Decide(s, token, d, now, answers).0, r, unit) == Kept(s, r, unit)
  {
    var held := Authenticate(s, token);
    if held.Some? && Open(s, held.value, d.observation, now) {
      var o := s.connections[held.value].work.value;
      DecideAllKeepsAttempts(s, held.value, o, d, 0, answers);
    }
  }
}
