/** One pass gives no unit a second order while a first is on its way to it. */
module AiPlanningOrders {
  import opened Ordered
  import opened OrderTraffic
  import opened Agents
  import opened AiPlanning
  import opened AiPlanningFrame
  import opened AiPlanningSafety
  import AgentSafety

  /** The goal policies plan orders and goals, never a decision about a request. */
  ghost predicate PlansNoDecisions(w: World) {
    forall role, units, i :: 0 <= i < |w.plan(role, units)| ==> !w.plan(role, units)[i].AuthorityDecision?
  }

  /** A policy's order came from the unit's owner, and was executed at once, or keeps the unit busy, or the
      game has stopped since. */
  ghost predicate OrderKept(s: State, t: State, i: int)
    requires 0 <= i < |t.submissions|
  {
    var o := t.submissions[i];
    && o.intent in t.placed && PlannerOwns(s, o.role, o.unit) && o.role in t.connections
    && (t.placed[o.intent].atOnce || t.status != Running || Busy(t.traffic, o.unit))
  }

  /** An order to the same unit followed only if this one was executed at once. */
  ghost predicate FollowedAtOnce(t: State, i: int)
    requires 0 <= i < |t.submissions|
  {
    forall j :: i < j < |t.submissions| && t.submissions[j].unit == t.submissions[i].unit ==>
      t.submissions[i].intent in t.placed && t.placed[t.submissions[i].intent].atOnce
  }

  ghost predicate SentOnce(s: State, t: State, n: nat) {
    && n <= |t.submissions| && Numbered(t.traffic, t.nextId)
    && (forall i :: n <= i < |t.submissions| ==> OrderKept(s, t, i))
    && (forall i :: n <= i < |t.submissions| ==> FollowedAtOnce(t, i))
  }

  /** What one submission does to the units' traffic. */
  lemma SubmitKeepsBusy(s: State, order: Submission, answer: Answer)
    requires Numbered(s.traffic, s.nextId)
    ensures var t := Submit(s, order, answer).0;
            && Numbered(t.traffic, t.nextId)
            && (forall unit :: Busy(s.traffic, unit) ==> t.status != Running || Busy(t.traffic, unit))
            && (s.status != Running ==> t.status != Running)
            && (forall id :: id in s.placed ==> id in t.placed && t.placed[id] == s.placed[id])
  {
    var next := s.nextId;
    DispatchNumbers(s.traffic, SeatsOf(s), next, order.intent, order.unit, order.kind.Move?, answer);
    forall unit | Busy(s.traffic, unit)
      ensures var sent := Dispatch(s.traffic, SeatsOf(s), next, order.intent, order.unit, order.kind.Move?, answer);
              sent.halted || Busy(sent.traffic, unit)
    {
      DispatchKeepsBusy(s.traffic, SeatsOf(s), next, order.intent, order.unit, order.kind.Move?, answer, unit);
    }
  }

  lemma SubmitSends(s: State, order: Submission, answer: Answer)
    ensures var (t, refusal) := Submit(s, order, answer);
            || t.submissions == s.submissions
            || (&& t.submissions == s.submissions + [order] && s.status == Running && order.intent in t.placed
                && (t.placed[order.intent].atOnce || Busy(t.traffic, order.unit)))
  {
    if Passes(SeatsOf(s), answer) {
      DispatchedIsOnItsWay(s.traffic, SeatsOf(s), s.nextId, order.intent, order.unit, order.kind.Move?, answer);
    }
    DispatchNumbers(s.traffic, SeatsOf(s), s.nextId, order.intent, order.unit, order.kind.Move?, answer);
  }

  /** What keeps everything sent so far. */
  ghost predicate Later(t: State, u: State) {
    && t.connections.Keys <= u.connections.Keys && Numbered(u.traffic, u.nextId)
    && (forall unit :: Busy(t.traffic, unit) ==> u.status != Running || Busy(u.traffic, unit))
    && (t.status != Running ==> u.status != Running)
    && (forall id :: id in t.placed ==> id in u.placed && u.placed[id] == t.placed[id])
  }

  lemma NothingSentKeeps(s: State, t: State, u: State, n: nat)
    requires SentOnce(s, t, n) && Later(t, u) && u.submissions == t.submissions
    ensures SentOnce(s, u, n)
  {
    forall i | n <= i < |u.submissions| ensures OrderKept(s, u, i) && FollowedAtOnce(u, i) {
      assert OrderKept(s, t, i) && FollowedAtOnce(t, i);
    }
  }

  /** A new order to a unit that is not busy. */
  lemma SendingKeeps(s: State, t: State, u: State, n: nat, order: Submission)
    requires SentOnce(s, t, n) && Later(t, u) && u.submissions == t.submissions + [order]
    requires t.status == Running && !Busy(t.traffic, order.unit)
    requires order.intent in u.placed && PlannerOwns(s, order.role, order.unit) && order.role in u.connections
    requires u.placed[order.intent].atOnce || Busy(u.traffic, order.unit)
    ensures SentOnce(s, u, n)
  {
    forall i | n <= i < |u.submissions| ensures OrderKept(s, u, i) && FollowedAtOnce(u, i) {
      if i < |t.submissions| {
        assert OrderKept(s, t, i) && FollowedAtOnce(t, i) && u.submissions[i] == t.submissions[i];
      }
    }
  }

  lemma ActKeepsSent(s: State, t: State, role: nat, a: Action, observation: nat, index: nat, answer: Answer, n: nat)
    requires role in t.connections && role in t.roles && SentOnce(s, t, n) && !a.AuthorityDecision?
    requires a.Order? ==> PlannerOwns(s, role, a.unit)
    ensures SentOnce(s, Act(t, role, a, observation, index, false, answer).0, n)
  {
    var u := Act(t, role, a, observation, index, false, answer).0;
    if a.Order? && a.unit in t.roles[role].units && !Busy(t.traffic, a.unit) {
      var order := Submission(Named(observation, index), role, a.unit, a.kind, false);
      SubmitKeepsBusy(t, order, answer);
      SubmitSends(t, order, answer);
      if u.submissions == t.submissions {
        NothingSentKeeps(s, t, u, n);
      } else {
        SendingKeeps(s, t, u, n, order);
      }
    } else {
      NothingSentKeeps(s, t, u, n);
    }
  }

  lemma {:induction false} ActionsKeepSent(
    s: State, p: Planner, w: World, role: nat, actions: seq<Action>, observation: nat, index: nat, n: nat)
    requires role in p.game.connections && role in p.game.roles && index <= |actions| && SentOnce(s, p.game, n)
    requires forall i :: 0 <= i < |actions| ==> !actions[i].AuthorityDecision?
    requires forall i :: 0 <= i < |actions| && actions[i].Order? ==> PlannerOwns(s, role, actions[i].unit)
    ensures SentOnce(s, PolicyActions(p, w, role, actions, observation, index).game, n)
    decreases |actions| - index
  {
    if index < |actions| {
      ActionKeepsSent(s, p, w, role, actions[index], observation, index, n);
      ActionsKeepSent(s, PolicyAction(p, w, role, actions[index], observation, index), w, role, actions, observation, index + 1, n);
    }
  }

  lemma ActionKeepsSent(s: State, p: Planner, w: World, role: nat, a: Action, observation: nat, index: nat, n: nat)
    requires role in p.game.connections && role in p.game.roles && SentOnce(s, p.game, n)
    requires !a.AuthorityDecision? && (a.Order? ==> PlannerOwns(s, role, a.unit))
    ensures SentOnce(s, PolicyAction(p, w, role, a, observation, index).game, n)
  {
    var t := p.game;
    var c := t.connections[role];
    if !RepeatsTooSoon(c, a, t.tick) {
      var tried := if a.Order? then t.(connections := t.connections[role := c.(
        attempts := c.attempts[a.unit := Attempt(t.tick, a.kind)])]) else t;
      NothingSentKeeps(s, t, tried, n);
      ActKeepsSent(s, tried, role, a, observation, index, w.answer(role, index), n);
    }
  }

  lemma TurnKeepsSent(s: State, p: Planner, w: World, role: nat, taken: set<nat>, n: nat)
    requires PlansOnlyGiven(w) && PlansNoDecisions(w) && s.roles == p.game.roles
    requires role in p.game.connections && role in p.game.roles && SentOnce(s, p.game, n)
    ensures SentOnce(s, PolicyTurn(p, w, role, taken).0.game, n)
  {
    var t, given := p.game, Given(p.game, role, taken);
    var planning := Planning(Evaluated(t, role), w, role);
    NothingSentKeeps(s, t, Evaluated(t, role), n);
    NothingSentKeeps(s, t, planning, n);
    PlanKeepsSent(s, p.(game := planning), w, role, given, t.nextId, n) by {
      forall unit | unit in given ensures PlannerOwns(s, role, unit) {
        SameOwner(s, t, role, unit);
      }
    }
    TurnUnfolds(p, w, role, taken);
  }

  lemma PlanKeepsSent(s: State, p: Planner, w: World, role: nat, given: set<nat>, observation: nat, n: nat)
    requires PlansOnlyGiven(w) && PlansNoDecisions(w) && role in p.game.connections && role in p.game.roles
    requires SentOnce(s, p.game, n) && forall unit :: unit in given ==> PlannerOwns(s, role, unit)
    ensures SentOnce(s, PolicyPlan(p, w, role, given, observation).game, n)
  {
    var actions := w.plan(role, given);
    forall i | 0 <= i < |actions| && actions[i].Order? ensures PlannerOwns(s, role, actions[i].unit) {
      assert actions[i].unit in given;
    }
    ActionsKeepSent(s, p, w, role, actions, observation, 0, n);
    var t := PolicyActions(p, w, role, actions, observation, 0).game;
    NothingSentKeeps(s, t, t.(history := Noted(t.history, Note(role, NoteKind.Planned))), n);
  }

  lemma {:induction false} TurnsKeepSent(s: State, p: Planner, w: World, roles: seq<nat>, taken: set<nat>, n: nat)
    requires PlansOnlyGiven(w) && PlansNoDecisions(w) && s.roles == p.game.roles && SentOnce(s, p.game, n)
    requires forall r :: r in roles ==> r in p.game.connections && r in p.game.roles
    ensures SentOnce(s, PolicyTurns(p, w, roles, taken).game, n)
    decreases |roles|
  {
    if roles != [] {
      TurnKeepsSent(s, p, w, roles[0], taken, n);
      var turn := PolicyTurn(p, w, roles[0], taken);
      TurnsKeepSent(s, turn.0, w, roles[1..], turn.1, n);
    }
  }

  lemma PoliciesSendOnce(p: Planner, w: World)
    requires PlansOnlyGiven(w) && PlansNoDecisions(w) && PolicyRolesKnown(p.game) && Numbered(p.game.traffic, p.game.nextId)
    ensures SentOnce(p.game, ProcessPolicies(p, w).game, |p.game.submissions|)
  {
    var adopted := Adopted(p.game);
    TurnsKeepSent(p.game, p.(game := adopted), w, PolicyRoles(adopted), {}, |p.game.submissions|);
  }

  // ---- Patrol -------------------------------------------------------------------------------------------

  /** Patrol's orders from n on: each by a patrol role, to a unit newly taken and to no unit twice. */
  ghost predicate PatrolSent(s: State, orders: seq<Submission>, n: nat, before: set<nat>, after: set<nat>) {
    && n <= |orders|
    && (forall i :: n <= i < |orders| ==>
          && orders[i].unit in after && orders[i].unit !in before && PatrolRole(s, orders[i].role)
          && (NoAgents(s) || PlannerOwns(s, orders[i].role, orders[i].unit)))
    && (forall i, j :: n <= i < j < |orders| ==> orders[i].unit != orders[j].unit)
  }

  lemma {:induction false} UnitsSentOnce(s: State, p: Planner, w: World, role: nat, units: seq<nat>, taken: set<nat>)
    requires Alike(s, p.game) && PatrolRole(s, role)
    ensures var r := PatrolUnits(p, w, role, units, taken);
            && taken <= r.taken && p.game.submissions <= r.planner.game.submissions
            && PatrolSent(s, r.planner.game.submissions, |p.game.submissions|, taken, r.taken)
    decreases |units|
  {
    if units != [] {
      var unit := units[0];
      TakesAlike(s, p.game, w, role, unit, taken);
      if !Takes(p.game, w, role, unit, taken) {
        UnitsSentOnce(s, p, w, role, units[1..], taken);
      } else if !Orders(p, w, role, unit) {
        UnitsSentOnce(s, p, w, role, units[1..], taken + {unit});
      } else {
        var q := Patrolling(p, w, role, unit);
        if q.game.status == Running {
          UnitsSentOnce(s, q, w, role, units[1..], taken + {unit});
          var r := PatrolUnits(q, w, role, units[1..], taken + {unit});
          SentThenSent(s, q.game.submissions, r.planner.game.submissions, |p.game.submissions|, taken, taken + {unit}, r.taken);
        }
      }
    }
  }

  lemma SentThenSent(
    s: State, orders: seq<Submission>, more: seq<Submission>, n: nat, before: set<nat>, taken: set<nat>, after: set<nat>)
    requires orders <= more && before <= taken <= after
    requires PatrolSent(s, orders, n, before, taken) && PatrolSent(s, more, |orders|, taken, after)
    ensures PatrolSent(s, more, n, before, after)
  {
    assert forall i :: n <= i < |orders| ==> orders[i] == more[i];
  }

  lemma {:induction false} TurnsSentOnce(s: State, p: Planner, w: World, roles: seq<nat>, taken: set<nat>)
    requires Alike(s, p.game) && forall r :: r in roles ==> PatrolRole(s, r) && r in p.game.roles
    ensures var q := PatrolTurns(p, w, roles, taken);
            && p.game.submissions <= q.game.submissions
            && exists after :: taken <= after && PatrolSent(s, q.game.submissions, |p.game.submissions|, taken, after)
    decreases |roles|
  {
    if roles == [] {
      assert PatrolSent(s, p.game.submissions, |p.game.submissions|, taken, taken);
    } else {
      var units := SortedKeys(p.game.roles[roles[0]].units);
      var turn := PatrolUnits(p, w, roles[0], units, taken);
      UnitsSentOnce(s, p, w, roles[0], units, taken);
      if !turn.stopped {
        TurnsSentOnce(s, turn.planner, w, roles[1..], turn.taken);
        var q := PatrolTurns(turn.planner, w, roles[1..], turn.taken);
        var after :| turn.taken <= after
                     && PatrolSent(s, q.game.submissions, |turn.planner.game.submissions|, turn.taken, after);
        SentThenSent(s, turn.planner.game.submissions, q.game.submissions, |p.game.submissions|, taken, turn.taken, after);
      }
    }
  }

  /** Patrol leaves what the policies placed as it is. */
  lemma {:induction false} PatrolKeepsPlaced(p: Planner, w: World, roles: seq<nat>, taken: set<nat>)
    requires forall r :: r in roles ==> r in p.game.roles
    ensures PatrolTurns(p, w, roles, taken).game.placed == p.game.placed
    decreases |roles|
  {
    if roles != [] {
      var turn := PatrolUnits(p, w, roles[0], SortedKeys(p.game.roles[roles[0]].units), taken);
      if !turn.stopped {
        PatrolKeepsPlaced(turn.planner, w, roles[1..], turn.taken);
      }
    }
  }

  /** In one pass, by policies and patrol together, a unit that is given two orders executed the first at
      once: no order follows one that still has to reach the unit or to be approved. */
  lemma OneOrderOnItsWay(p: Planner, w: World, i: nat, j: nat)
    requires PlansOnlyGiven(w) && PlansNoDecisions(w) && PolicyRolesKnown(p.game) && |p.game.history| <= HISTORY
    requires Numbered(p.game.traffic, p.game.nextId)
    requires |p.game.submissions| <= i < j < |ProcessAiOrders(p, w).game.submissions|
    requires var orders := ProcessAiOrders(p, w).game.submissions; orders[i].unit == orders[j].unit
    ensures var q := ProcessAiOrders(p, w).game;
            q.submissions[i].intent in q.placed && q.placed[q.submissions[i].intent].atOnce
  {
    var t, q := ProcessPolicies(p, w), ProcessAiOrders(p, w);
    var m := |t.game.submissions|;
    PoliciesSendOnce(p, w);
    PatrolRolesRemain(t.game);
    TurnsSentOnce(t.game, t, w, PatrolRoles(t.game), {});
    PatrolKeepsPlaced(t, w, PatrolRoles(t.game), {});
    var orders := q.game.submissions;
    if i < m {
      assert orders[i] == t.game.submissions[i] && OrderKept(p.game, t.game, i) && FollowedAtOnce(t.game, i);
      if m <= j {
        PhasesDisjoint(p, w, orders[i], orders[j]);
      } else {
        assert orders[j] == t.game.submissions[j];
      }
    }
  }

  /** No unit gets an order from both phases. */
  lemma PhasesDisjoint(p: Planner, w: World, x: Submission, y: Submission)
    requires PlansOnlyGiven(w) && PolicyRolesKnown(p.game) && |p.game.history| <= HISTORY
    requires var t := ProcessPolicies(p, w).game;
             && PlannerOwns(p.game, x.role, x.unit) && x.role in t.connections && t.submissions != p.game.submissions
             && PatrolRole(t, y.role) && (NoAgents(t) || PlannerOwns(t, y.role, y.unit))
    ensures x.unit != y.unit
  {
    var t := ProcessPolicies(p, w);
    PoliciesOwned(p, w);
    if !NoAgents(p.game) && x.unit == y.unit {
      AgentsStay(p, w);
      SameOwner(p.game, t.game, y.role, y.unit);
      PlannerIsUnique(p.game, x.unit);
    }
  }
}
