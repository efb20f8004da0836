/** Exactly which patrol orders a pass gives. */
module AiPlanningPatrol {
  import opened Ordered
  import opened OrderTraffic
  import opened Agents
  import opened AiPlanning
  import opened AiPlanningSafety
  import AgentRuns
  import OrderRequests

  // ---- One order ----------------------------------------------------------------------------------------

  /** Nothing about the unit differs that a patrol order to it depends on. */
  ghost predicate SameUnit(p: Planner, q: Planner, unit: nat) {
    && OrderIsPending(q.game.traffic, unit) == OrderIsPending(p.game.traffic, unit)
    && (unit in q.attempts <==> unit in p.attempts) && (unit in p.attempts ==> q.attempts[unit] == p.attempts[unit])
  }

  ghost predicate OrdersNow(p: Planner, w: World, o: Command) {
    Orders(p, w, o.role, o.unit) && w.patrol(o.role, o.unit) == Some(o.kind) && o.tick == p.game.tick
  }

  lemma SameOrdersNow(p: Planner, q: Planner, w: World, o: Command)
    requires SameUnit(p, q, o.unit) && q.game.tick == p.game.tick
    ensures OrdersNow(p, w, o) == OrdersNow(q, w, o)
  {
  }

  lemma DispatchKeepsPending(
    t: Traffic, seats: Seats, next: nat, intent: IntentId, unit: nat, move: bool, answer: Answer, other: nat)
    requires Numbered(t, next) && other != unit && !Dispatch(t, seats, next, intent, unit, move, answer).halted
    ensures OrderIsPending(Dispatch(t, seats, next, intent, unit, move, answer).traffic, other) == OrderIsPending(t, other)
  {
    var u := Dispatch(t, seats, next, intent, unit, move, answer).traffic;
    assert forall m :: m in t.waiting ==> m in u.waiting && u.waiting[m] == t.waiting[m];
    assert forall m :: m in u.waiting && Carries(u.waiting[m], other) ==> m in t.waiting && u.waiting[m] == t.waiting[m];
    assert forall r :: r in t.requests ==> r in u.requests && u.requests[r] == t.requests[r];
    assert forall r :: r in u.requests && AsksFor(u.requests[r], other) ==> r in t.requests && u.requests[r] == t.requests[r];
  }

  /** A patrol order that leaves the game running leaves the other units as they were. */
  lemma OneOrder(s: State, p: Planner, w: World, role: nat, unit: nat, other: nat)
    requires w.patrol(role, unit).Some? && Alike(s, p.game) && Numbered(p.game.traffic, p.game.nextId)
    requires Patrolling(p, w, role, unit).game.status == Running
    ensures var q := Patrolling(p, w, role, unit);
            && Alike(s, q.game) && Numbered(q.game.traffic, q.game.nextId)
            && q.patrolLog == p.patrolLog + [Command(role, unit, w.patrol(role, unit).value, p.game.tick)]
            && (other != unit ==> SameUnit(p, q, other))
  {
    var g, kind := p.game, w.patrol(role, unit).value;
    DispatchNumbers(g.traffic, SeatsOf(g), g.nextId + 1, Issued(g.nextId), unit, kind.Move?, w.sent(role, unit));
    if other != unit {
      DispatchKeepsPending(
        g.traffic, SeatsOf(g), g.nextId + 1, Issued(g.nextId), unit, kind.Move?, w.sent(role, unit), other);
    }
  }

  /** The order of a patrol goes on its way, under an identifier of its own, exactly if it is let through, and is
      remembered as the unit's last either way. */
  lemma PatrolOrdersAreGiven(p: Planner, w: World, role: nat, unit: nat)
    requires w.patrol(role, unit).Some?
    ensures var s, q, kind := p.game, Patrolling(p, w, role, unit), w.patrol(role, unit).value;
            && q.game.submissions == s.submissions + (
                 if Passes(SeatsOf(s), w.sent(role, unit)) then [Submission(Issued(s.nextId), role, unit, kind, false)] else [])
            && q.attempts == p.attempts[unit := PatrolAttempt(role, s.tick, kind)] && q.game.nextId > s.nextId
            && (var give := OrderRequests.Give(SeatsOf(s), Issued(s.nextId), unit, kind.Move?, w.sent(role, unit));
                var way := OrderRequests.Apply(OrderRequests.State(s.traffic, s.nextId + 1, []), give);
                q.game.traffic == way.traffic && q.game.nextId == way.next)
  {
    DispatchNumbers(p.game.traffic, SeatsOf(p.game), p.game.nextId + 1, Issued(p.game.nextId), unit,
                    w.patrol(role, unit).value.Move?, w.sent(role, unit));
  }

  // ---- One role's units -----------------------------------------------------------------------------------

  /** The role patrols the unit if no role before it does. */
  ghost predicate Wants(s: State, w: World, role: nat, unit: nat) {
    w.air(role, unit) && (NoAgents(s) || PlannerOwns(s, role, unit))
  }

  /** What one role's part of the pass does: its units are taken, and those to be ordered now are ordered. */
  ghost predicate UnitsDone(s: State, p: Planner, w: World, role: nat, units: seq<nat>, taken: set<nat>, q: Planner, after: set<nat>) {
    && Alike(s, q.game) && Numbered(q.game.traffic, q.game.nextId) && p.patrolLog <= q.patrolLog
    && (forall u :: u in after <==> u in taken || (u in units && Wants(s, w, role, u)))
    && (forall u :: u in taken || u !in units || !Wants(s, w, role, u) ==> SameUnit(p, q, u))
    && (forall o :: o in q.patrolLog[|p.patrolLog|..] <==>
          o.role == role && o.unit in units && o.unit !in taken && Wants(s, w, role, o.unit) && OrdersNow(p, w, o))
  }

  lemma SkipUnit(s: State, p: Planner, w: World, role: nat, units: seq<nat>, taken: set<nat>, q: Planner, after: set<nat>)
    requires units != [] && UnitsDone(s, p, w, role, units[1..], taken, q, after)
    requires units[0] in taken || !Wants(s, w, role, units[0])
    ensures UnitsDone(s, p, w, role, units, taken, q, after)
  {
    assert forall u :: u in units <==> u == units[0] || u in units[1..];
  }

  lemma TakeUnit(s: State, p: Planner, w: World, role: nat, units: seq<nat>, taken: set<nat>, q: Planner, after: set<nat>)
    requires units != [] && UnitsDone(s, p, w, role, units[1..], taken + {units[0]}, q, after)
    requires units[0] !in taken && Wants(s, w, role, units[0]) && !Orders(p, w, role, units[0])
    ensures UnitsDone(s, p, w, role, units, taken, q, after)
  {
    assert forall u :: u in units <==> u == units[0] || u in units[1..];
  }

  lemma OrderUnit(
    s: State, p: Planner, w: World, role: nat, units: seq<nat>, taken: set<nat>, q: Planner, r: Planner, after: set<nat>)
    requires units != [] && UnitsDone(s, q, w, role, units[1..], taken + {units[0]}, r, after) && units[0] !in units[1..]
    requires units[0] !in taken && Wants(s, w, role, units[0]) && Orders(p, w, role, units[0])
    requires q.patrolLog == p.patrolLog + [Command(role, units[0], w.patrol(role, units[0]).value, p.game.tick)]
    requires q.game.tick == p.game.tick && forall u :: u != units[0] ==> SameUnit(p, q, u)
    ensures UnitsDone(s, p, w, role, units, taken, r, after)
  {
    var given := Command(role, units[0], w.patrol(role, units[0]).value, p.game.tick);
    assert forall u :: u in units <==> u == units[0] || u in units[1..];
    forall u | u in taken || u !in units || !Wants(s, w, role, u) ensures SameUnit(p, r, u) {
      assert SameUnit(p, q, u) && SameUnit(q, r, u);
    }
    assert r.patrolLog[|p.patrolLog|..] == [given] + r.patrolLog[|q.patrolLog|..];
    forall o ensures o in r.patrolLog[|p.patrolLog|..] <==>
              (o.role == role && o.unit in units && o.unit !in taken && Wants(s, w, role, o.unit) && OrdersNow(p, w, o))
    {
      if o.unit != units[0] {
        SameOrdersNow(p, q, w, o);
      }
    }
  }

  lemma {:induction false} UnitsPatrol(s: State, p: Planner, w: World, role: nat, units: seq<nat>, taken: set<nat>)
    requires Alike(s, p.game) && Numbered(p.game.traffic, p.game.nextId) && Ascending(units)
    requires !PatrolUnits(p, w, role, units, taken).stopped
    ensures var r := PatrolUnits(p, w, role, units, taken); UnitsDone(s, p, w, role, units, taken, r.planner, r.taken)
    decreases |units|
  {
    if units != [] {
      var unit, r := units[0], PatrolUnits(p, w, role, units, taken);
      TakesAlike(s, p.game, w, role, unit, taken);
      AgentRuns.AscendingTail(units);
      if !Takes(p.game, w, role, unit, taken) {
        UnitsPatrol(s, p, w, role, units[1..], taken);
        SkipUnit(s, p, w, role, units, taken, r.planner, r.taken);
      } else if !Orders(p, w, role, unit) {
        UnitsPatrol(s, p, w, role, units[1..], taken + {unit});
        TakeUnit(s, p, w, role, units, taken, r.planner, r.taken);
      } else {
        var q := Patrolling(p, w, role, unit);
        forall other ensures other != unit ==> SameUnit(p, q, other) {
          OneOrder(s, p, w, role, unit, other);
        }
        OneOrder(s, p, w, role, unit, unit);
        UnitsPatrol(s, q, w, role, units[1..], taken + {unit});
        OrderUnit(s, p, w, role, units, taken, q, r.planner, r.taken);
      }
    }
  }

  // ---- All roles ----------------------------------------------------------------------------------------

  ghost predicate WantsOwn(s: State, w: World, role: nat, unit: nat) {
    role in s.roles && unit in s.roles[role].units && Wants(s, w, role, unit)
  }

  /** The role is the first of these to want the unit. */
  ghost predicate FirstToWant(s: State, w: World, roles: seq<nat>, role: nat, unit: nat)
    decreases |roles|
  {
    && roles != []
    && if WantsOwn(s, w, roles[0], unit) then role == roles[0] else FirstToWant(s, w, roles[1..], role, unit)
  }

  lemma {:induction false} TurnStops(p: Planner, w: World, role: nat, units: seq<nat>, taken: set<nat>)
    requires PatrolUnits(p, w, role, units, taken).stopped
    ensures PatrolUnits(p, w, role, units, taken).planner.game.status != Running
    decreases |units|
  {
    var unit := units[0];
    if !Takes(p.game, w, role, unit, taken) {
      TurnStops(p, w, role, units[1..], taken);
    } else if !Orders(p, w, role, unit) {
      TurnStops(p, w, role, units[1..], taken + {unit});
    } else if Patrolling(p, w, role, unit).game.status == Running {
      TurnStops(Patrolling(p, w, role, unit), w, role, units[1..], taken + {unit});
    }
  }

  ghost predicate TurnsDone(s: State, p: Planner, w: World, roles: seq<nat>, taken: set<nat>, q: Planner) {
    && p.patrolLog <= q.patrolLog
    && (forall o :: o in q.patrolLog[|p.patrolLog|..] <==>
          o.unit !in taken && FirstToWant(s, w, roles, o.role, o.unit) && OrdersNow(p, w, o))
  }

  lemma TurnThenTurns(
    s: State, p: Planner, w: World, roles: seq<nat>, units: seq<nat>, taken: set<nat>, q: Planner, after: set<nat>, r: Planner)
    requires roles != [] && roles[0] in s.roles && (forall u :: u in units <==> u in s.roles[roles[0]].units)
    requires Alike(s, p.game) && UnitsDone(s, p, w, roles[0], units, taken, q, after)
    requires TurnsDone(s, q, w, roles[1..], after, r)
    ensures TurnsDone(s, p, w, roles, taken, r)
  {
    assert r.patrolLog[|p.patrolLog|..] == q.patrolLog[|p.patrolLog|..] + r.patrolLog[|q.patrolLog|..];
    forall o ensures o in r.patrolLog[|p.patrolLog|..] <==>
              (o.unit !in taken && FirstToWant(s, w, roles, o.role, o.unit) && OrdersNow(p, w, o))
    {
      if !WantsOwn(s, w, roles[0], o.unit) {
        assert SameUnit(p, q, o.unit);
        SameOrdersNow(p, q, w, o);
      }
    }
  }

  lemma {:induction false} TurnsPatrol(s: State, p: Planner, w: World, roles: seq<nat>, taken: set<nat>)
    requires Alike(s, p.game) && Numbered(p.game.traffic, p.game.nextId) && forall r :: r in roles ==> r in s.roles
    requires PatrolTurns(p, w, roles, taken).game.status == Running
    ensures TurnsDone(s, p, w, roles, taken, PatrolTurns(p, w, roles, taken))
    decreases |roles|
  {
    if roles != [] {
      var units := SortedKeys(p.game.roles[roles[0]].units);
      var turn := PatrolUnits(p, w, roles[0], units, taken);
      if turn.stopped {
        TurnStops(p, w, roles[0], units, taken);
      }
      UnitsPatrol(s, p, w, roles[0], units, taken);
      TurnsPatrol(s, turn.planner, w, roles[1..], turn.taken);
      TurnThenTurns(s, p, w, roles, units, taken, turn.planner, turn.taken, PatrolTurns(p, w, roles, taken));
    }
  }

  /** In planning order the first to want a unit is the smallest. */
  lemma {:induction false} FirstIsSmallest(s: State, w: World, roles: seq<nat>, role: nat, unit: nat)
    requires InPlanningOrder(s, roles) && forall r :: r in roles ==> r in s.roles
    ensures FirstToWant(s, w, roles, role, unit) <==>
              (role in roles && WantsOwn(s, w, role, unit)
               && forall q :: q in roles && WantsOwn(s, w, q, unit) ==> Precedes(s, role, q))
    decreases |roles|
  {
    if roles != [] {
      FirstIsSmallest(s, w, roles[1..], role, unit);
      assert forall q :: q in roles <==> q == roles[0] || q in roles[1..];
      forall q | q in roles[1..] ensures q != roles[0] && Precedes(s, roles[0], q) && !Precedes(s, q, roles[0]) {
        var j :| 0 <= j < |roles| - 1 && roles[1..][j] == q;
        assert roles[j + 1] == q;
      }
    }
  }

  // ---- A pass -------------------------------------------------------------------------------------------

  ghost predicate Smaller(s: State, role: nat, q: nat)
    requires role in s.roles && q in s.roles
  {
    |s.roles[role].units| < |s.roles[q].units| || (|s.roles[role].units| == |s.roles[q].units| && role <= q)
  }

  /** There is no agents' state: nothing was ever set up, decided or noted. */
  ghost predicate Unused(s: State) {
    s.goals == {} && s.connections == map[] && s.decisions == map[] && s.history == []
  }

  /** The role is an AI's, with neither a connection nor a goal, and of the AI roles that command the unit it has
      the smallest scope; as long as there is no agents' state at all, of those that see it as an aircraft. */
  ghost predicate Patrols(s: State, w: World, role: nat, unit: nat) {
    && role in s.roles && s.roles[role].aiControlled && unit in s.roles[role].units && w.air(role, unit)
    && role !in s.connections && (forall goal :: goal in s.goals ==> goal.role != role)
    && (forall q :: q in s.roles && s.roles[q].aiControlled && unit in s.roles[q].units && (Unused(s) ==> w.air(q, unit)) ==>
          Smaller(s, role, q))
  }

  ghost predicate NothingPending(t: Traffic, unit: nat) {
    && (forall m :: m in t.waiting ==> t.waiting[m].Activate? || t.waiting[m].unit != unit)
    && (forall r :: r in t.requests ==> t.requests[r].unit != unit || t.requests[r].standing.Closed? || !t.requests[r].move)
  }

  ghost predicate PatrolDue(p: Planner, o: Command) {
    o.unit in p.attempts ==>
      p.attempts[o.unit].role != o.role || p.attempts[o.unit].kind != o.kind || p.game.tick >= p.attempts[o.unit].tick + 10
  }

  lemma WantedExactly(s: State, w: World, role: nat, unit: nat)
    ensures Patrols(s, w, role, unit) <==>
              (PatrolRole(s, role) && WantsOwn(s, w, role, unit)
               && forall q :: PatrolRole(s, q) && WantsOwn(s, w, q, unit) ==> Precedes(s, role, q))
  {
    assert Unused(s) <==> NoAgents(s);
    if PatrolRole(s, role) && WantsOwn(s, w, role, unit) {
      assert Controls(s, role, unit);
      if NoAgents(s) {
        assert forall q :: PatrolRole(s, q) <==> q in s.roles && s.roles[q].aiControlled;
        assert forall q :: q in s.roles && s.roles[q].aiControlled && unit in s.roles[q].units && w.air(q, unit) ==> WantsOwn(s, w, q, unit);
        assert forall q :: q in s.roles ==> (Smaller(s, role, q) <==> Precedes(s, role, q));
      } else {
        assert forall q :: q in s.roles && s.roles[q].aiControlled && unit in s.roles[q].units ==> Controls(s, q, unit);
        assert forall q :: q in s.roles ==> (Smaller(s, role, q) <==> Precedes(s, role, q));
      }
    }
  }

  /** The role patrols the unit. */
  lemma PatrolsFirst(s: State, w: World, role: nat, unit: nat)
    ensures FirstToWant(s, w, PatrolRoles(s), role, unit) <==> Patrols(s, w, role, unit)
  {
    var roles := PatrolRoles(s);
    ByScopeIsOrdered(s, set r | r in s.roles && PatrolRole(s, r));
    FirstIsSmallest(s, w, roles, role, unit);
    WantedExactly(s, w, role, unit);
    assert forall q :: q in roles <==> PatrolRole(s, q);
  }

  lemma PatrolPass(p: Planner, w: World)
    requires PolicyRolesKnown(p.game) && p.game.status == Running && !p.game.complete
    requires Numbered(ProcessPolicies(p, w).game.traffic, ProcessPolicies(p, w).game.nextId)
    requires ProcessAiOrders(p, w).game.status == Running
    ensures var t := ProcessPolicies(p, w); TurnsDone(t.game, t, w, PatrolRoles(t.game), {}, ProcessAiOrders(p, w))
  {
    var t := ProcessPolicies(p, w);
    TurnsPatrol(t.game, t, w, PatrolRoles(t.game), {});
  }

  lemma PendingExactly(t: Traffic, unit: nat)
    ensures NothingPending(t, unit) <==> !OrderIsPending(t, unit)
  {
  }

  /** A pass that leaves the game running gives exactly these patrol orders: to each aircraft, from the role
      that patrols it, what that role would have it do, unless an order for the unit is pending or the role just
      tried the same. */
  lemma PatrolsExactly(p: Planner, w: World, o: Command)
    requires PolicyRolesKnown(p.game) && p.game.status == Running && !p.game.complete
    requires Numbered(ProcessPolicies(p, w).game.traffic, ProcessPolicies(p, w).game.nextId)
    requires ProcessAiOrders(p, w).game.status == Running
    ensures var t, q := ProcessPolicies(p, w), ProcessAiOrders(p, w);
            && t.patrolLog <= q.patrolLog
            && (o in q.patrolLog[|t.patrolLog|..] <==>
                  && Patrols(t.game, w, o.role, o.unit) && w.patrol(o.role, o.unit) == Some(o.kind)
                  && o.tick == t.game.tick && NothingPending(t.game.traffic, o.unit) && PatrolDue(t, o))
  {
    var t := ProcessPolicies(p, w);
    PatrolPass(p, w);
    PatrolsFirst(t.game, w, o.role, o.unit);
    PendingExactly(t.game.traffic, o.unit);
  }
}
