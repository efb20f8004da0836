/** External control on a game that is updated in place, proved against module Agents. */
module AgentGame {
  import opened Ordered
  import opened OrderTraffic
  import opened Agents

  class Game {
    var status: Status
    var complete: bool
    var tick: nat
    var roles: map<nat, Role>
    var goals: set<Goal>
    var connections: map<nat, Connection>
    var decisions: map<nat, Stored>
    var history: seq<Note>
    var nextId: nat
    var waiting: map<nat, Waiting>
    var requests: map<nat, Request>
    var placed: map<IntentId, Placed>
    var submissions: seq<Submission>
    var applied: seq<Applied>

    /** Everything ever noted. */
    ghost var noted: seq<Note>

    /** The history holds the latest of all notes. */
    ghost predicate Valid()
      reads this
    {
      history == Latest(noted, HISTORY)
    }

    function Orders(): Traffic
      reads this`waiting, this`requests
    {
      Traffic(waiting, requests)
    }

    /** The fields as one value. */
    function Model(): State
      reads this
    {
      State(status, complete, tick, roles, goals, connections, decisions, history, nextId, Orders(), placed, submissions, applied)
    }

    constructor (roles: map<nat, Role>, goals: set<Goal>)
      ensures Valid() && noted == [] && Fresh(Model()) && status == Running && !complete && this.roles == roles && this.goals == goals
    {
      status, complete, tick, this.roles, this.goals := Running, false, 0, roles, goals;
      connections, decisions, history, nextId, placed, submissions, applied, noted := map[], map[], [], 0, map[], [], [], [];
      waiting, requests := map[], map[];
    }

    /** Remember what happened, forgetting the oldest of more than a hundred notes: the history goes on
        holding the latest hundred of all that was ever noted. */
    method Event(note: Note)
      requires Valid()
      modifies this`history, this`noted
      ensures Valid() && noted == old(noted) + [note]
      ensures history == Noted(old(history), note)
    {
      LatestGrows(noted, note, HISTORY);
      noted := noted + [note];
      history := history + [note];
      if |history| > HISTORY {
        history := history[1..];
      }
    }

    method InvalidateWork()
      modifies this`connections
      ensures Model() == Agents.InvalidateWork(old(Model()))
    {
      var remaining := connections.Keys;
      while remaining != {}
        invariant remaining <= connections.Keys == old(connections.Keys)
        invariant forall r :: r in connections ==>
          connections[r] == if r in remaining then old(connections)[r] else Invalidated(old(connections)[r])
      {
        var role := Least(remaining);
        connections := connections[role := Invalidated(connections[role])];
        remaining := remaining - {role};
      }
    }

    /** One assignment, its work already withdrawn, after an authority edit. */
    method Reassign(id: nat)
      requires id in connections && Invalidated(connections[id]) == connections[id]
      modifies this`connections, this`roles
      ensures connections == old(connections)[id := Reassigned(old(roles), id, old(connections)[id])]
      ensures roles == if id in old(roles) then old(roles)[id := ReassignedRole(old(roles), old(connections), id)] else old(roles)
    {
      if id !in roles {
        assert connections == connections[id := connections[id]];
        return;
      }
      var c, role := connections[id], roles[id];
      role := role.(aiControlled := c.mode != Human, claimable := c.mode == Human);
      if c.mode != Human {
        role := role.(generation := role.generation + 1);
        c := c.(generation := role.generation);
      }
      c := c.(assignments := map unit | unit in c.assignments && unit in role.units :: c.assignments[unit]);
      roles, connections := roles[id := role], connections[id := c];
    }

    method ReassignAll()
      requires forall r :: r in connections ==> Invalidated(connections[r]) == connections[r]
      modifies this`connections, this`roles
      ensures connections.Keys == old(connections.Keys) && roles.Keys == old(roles.Keys)
      ensures forall r :: r in connections ==> connections[r] == Reassigned(old(roles), r, old(connections)[r])
      ensures forall r :: r in roles ==> roles[r] == ReassignedRole(old(roles), old(connections), r)
    {
      var remaining := connections.Keys;
      while remaining != {}
        invariant remaining <= connections.Keys == old(connections.Keys) && roles.Keys == old(roles.Keys)
        invariant forall r :: r in connections ==>
          connections[r] == if r in remaining then old(connections)[r] else Reassigned(old(roles), r, old(connections)[r])
        invariant forall r :: r in roles ==>
          roles[r] == if r in remaining then old(roles)[r] else ReassignedRole(old(roles), old(connections), r)
      {
        var id := Least(remaining);
        SameReassignment(roles, old(roles), connections, old(connections), id);
        Reassign(id);
        remaining := remaining - {id};
      }
    }

    /** Every assigned role gets a new generation and loses its open work and the goals of units it
        no longer commands. */
    method AuthorityChanged()
      modifies this`connections, this`roles
      ensures Model() == Agents.AuthorityChanged(old(Model()))
    {
      InvalidateWork();
      ghost var idle := connections;
      ReassignAll();
      ReassignedWhole(old(Model()), roles, connections, idle);
    }

    method Configure(role: nat, mode: Mode, timeoutMs: nat, token: nat) returns (refusal: Option<Refusal>)
      requires Valid()
      modifies this
      ensures Valid() && old(noted) <= noted
      ensures (Model(), refusal) == Agents.Configure(old(Model()), role, mode, timeoutMs, token)
    {
      if !(MIN_TIMEOUT_MS <= timeoutMs <= MAX_TIMEOUT_MS) {
        return Some(InvalidTimeout);
      }
      if role !in roles {
        return Some(RoleNotFound);
      }
      var r := roles[role];
      if r.owned {
        r := r.(owned := false, generation := r.generation + 1);
      }
      roles := roles[role := r.(
        generation := r.generation + 1, aiControlled := mode != Human, claimable := mode == Human)];
      var credential := if mode == External then Some(token) else None;
      connections := connections[role := NewConnection(mode, roles[role].generation, credential, timeoutMs)];
      Event(Note(role, Assigned));
      return None;
    }

    method ExpireOne(role: nat, now: nat)
      requires role in connections
      requires Valid()
      modifies this
      ensures Valid() && old(noted) <= noted
      ensures Model() == Expire(old(Model()), role, now)
    {
      var c := connections[role];
      if c.work.Some? && c.work.value.deadlineMs <= now {
        connections := connections[role := c.(work := None, fallback := true)];
        Event(Note(role, TimedOut));
      }
    }

    method IssueOne(role: nat, now: nat, views: map<nat, View>)
      requires role in connections
      requires Valid()
      modifies this
      ensures Valid() && noted == old(noted)
      ensures Model() == Issue(old(Model()), role, now, views)
    {
      var c := connections[role];
      if c.work.None? && (c.lastWorkTick.None? || SaturatingSub(tick, c.lastWorkTick.value) >= WORK_INTERVAL_TICKS) {
        var view := ViewOf(views, role);
        var shown := set r | r in view.requests && r in requests;
        var observation := Observation(nextId, c.generation, SaturatingAdd(now, c.timeoutMs), view.tracks, shown);
        nextId := nextId + 1;
        connections := connections[role := c.(
          work := Some(observation), lastWorkTick := Some(tick), issued := c.issued + [tick])];
      }
    }

    method AdvanceOne(role: nat, now: nat, views: map<nat, View>)
      requires role in connections
      requires Valid()
      modifies this
      ensures Valid() && old(noted) <= noted
      ensures Model() == AdvanceRole(old(Model()), role, now, views)
    {
      ExpireOne(role, now);
      IssueOne(role, now, views);
    }

    method Advance(now: nat, views: map<nat, View>)
      requires Valid()
      modifies this
      ensures Valid() && old(noted) <= noted
      ensures Model() == Agents.Advance(old(Model()), now, views)
    {
      if status != Running || complete {
        InvalidateWork();
        return;
      }
      var external, i := ExternalRoles(Model()), 0;
      assert external[0..] == external;
      while i < |external|
        invariant i <= |external| && Valid() && old(noted) <= noted
        invariant forall r :: r in external ==> r in connections
        invariant AdvanceRoles(Model(), external[i..], now, views) == Agents.Advance(old(Model()), now, views)
      {
        assert external[i..][0] == external[i] && external[i..][1..] == external[i + 1..];
        AdvanceOne(external[i], now, views);
        i := i + 1;
      }
    }

    /** An order for the unit waits for delivery, or a request to move it is open. */
    method OrderWaits(unit: nat) returns (found: bool)
      ensures found == OrderIsPending(Orders(), unit)
    {
      var messages := SortedKeys(waiting.Keys);
      for i := 0 to |messages|
        invariant forall j :: 0 <= j < i ==> !Carries(waiting[messages[j]], unit)
      {
        if Carries(waiting[messages[i]], unit) {
          return true;
        }
      }
      assert !Carried(Orders(), unit);
      var open := SortedKeys(requests.Keys);
      for i := 0 to |open|
        invariant forall j :: 0 <= j < i ==> !(AsksFor(requests[open[j]], unit) && requests[open[j]].move)
      {
        if AsksFor(requests[open[i]], unit) && requests[open[i]].move {
          return true;
        }
      }
      return false;
    }

    /** No controller may order the unit now. */
    method IsBusy(unit: nat) returns (busy: bool)
      ensures busy == Busy(Orders(), unit)
    {
      busy := OrderWaits(unit);
      if busy {
        return;
      }
      var open := SortedKeys(requests.Keys);
      for i := 0 to |open|
        invariant forall j :: 0 <= j < i ==> !AsksFor(requests[open[j]], unit)
      {
        if AsksFor(requests[open[i]], unit) {
          return true;
        }
      }
    }

    /** Forget every waiting action; a request that waited for its message is blocked. */
    method AbortPending()
      modifies this`waiting, this`requests
      ensures Orders() == Dropping(old(Orders()))
    {
      ghost var before := Orders();
      var taken, left := waiting, waiting.Keys;
      waiting := map[];
      while left != {}
        invariant left <= taken.Keys && taken == before.waiting && waiting == map[]
        invariant requests.Keys == before.requests.Keys
        invariant forall r :: r in requests ==>
          requests[r] == if AwaitsMessage(before, r) && before.requests[r].standing.message !in left
                         then before.requests[r].(standing := Closed) else before.requests[r]
      {
        var m := Least(left);
        left := left - {m};
        var action := taken[m];
        if !action.Execute? && action.request in requests && requests[action.request].standing == InTransit(m) {
          requests := requests[action.request := requests[action.request].(standing := Closed)];
        }
      }
      assert Orders() == Dropping(before);
    }

    /** One message out, under the next identifier. */
    method Transmit(sending: Sending) returns (message: Option<nat>)
      modifies this`waiting, this`requests, this`nextId, this`status
      ensures nextId == old(nextId) + 1 && message == if Arrives(sending) then Some(old(nextId)) else None
      ensures Orders() == if sending == Unwritten then Dropping(old(Orders())) else old(Orders())
      ensures status == if sending == Unwritten then Paused else old(status)
    {
      var id := nextId;
      nextId := nextId + 1;
      if sending == Unwritten {
        status := Paused;
        AbortPending();
        return None;
      }
      return if sending == Dropped then None else Some(id);
    }

    function StandingOf(role: nat): Standing
      reads this`roles, this`connections
    {
      if (role in connections && connections[role].mode != Human) || (role in roles && roles[role].owned)
      then PendingHuman else WaitingVacant
    }

    /** Give an order directly or ask for it. */
    method Send(order: Submission, answer: Answer) returns (accepted: bool)
      modifies this`waiting, this`requests, this`nextId, this`status
      ensures var sent := Dispatch(old(Orders()), SeatsOf(old(Model())), old(nextId), order.intent, order.unit, order.kind.Move?, answer);
              && Orders() == sent.traffic && nextId == sent.next && accepted == sent.accepted
              && status == if sent.halted then Paused else old(status)
    {
      if answer.route.Forbidden? || (answer.route.ByRequest? && (answer.route.steps == [] || answer.route.steps[0] !in roles)) {
        return false;
      }
      var message := Transmit(answer.sending);
      if message.None? {
        return false;
      }
      if answer.route.Direct? {
        if answer.sending != Local {
          waiting := waiting[message.value := Execute(order.intent, order.unit)];
        }
        return true;
      }
      var id := nextId;
      nextId := nextId + 1;
      var steps := answer.route.steps;
      var standing := InTransit(message.value);
      if answer.sending == Local {
        standing := StandingOf(steps[0]);
      } else {
        waiting := waiting[message.value := Activate(id)];
      }
      requests := requests[id := Request(order.unit, order.kind.Move?, steps, 0, answer.route.executable, Some(order.intent), order.intent, standing, [])];
      return true;
    }

    /** Submit an order. Every identifier goes on standing for its first order: a repeat in the same tick gets
        that order's answer and any other order is refused, without a change. An order is handed over exactly
        if it is accepted under a free identifier, which stands for it from then on. */
    method Place(order: Submission, answer: Answer) returns (refusal: Option<Refusal>)
      modifies this`status, this`nextId, this`waiting, this`requests, this`placed, this`submissions
      ensures (Model(), refusal) == Submit(old(Model()), order, answer)
      ensures forall id :: id in old(placed) ==> id in placed && placed[id] == old(placed)[id]
      ensures submissions == old(submissions) + (if refusal.None? && order.intent !in old(placed) then [order] else [])
      ensures refusal.None? ==>
                order.intent in placed && SameOrder(placed[order.intent], order, tick) && placed[order.intent].accepted
      ensures order.intent in old(placed) ==>
                && Model() == old(Model())
                && (refusal == Some(IntentConflict) <==> !SameOrder(old(placed)[order.intent], order, tick))
                && (refusal.None? <==> SameOrder(old(placed)[order.intent], order, tick) && old(placed)[order.intent].accepted)
    {
      if order.intent in placed {
        var first := placed[order.intent];
        if first.role != order.role || first.unit != order.unit || first.kind != order.kind || first.tick != tick {
          return Some(IntentConflict);
        }
        return if first.accepted then None else Some(Rejected);
      }
      if status != Running || complete {
        return Some(NotRunning);
      }
      if !answer.wellFormed {
        return Some(Rejected);
      }
      var accepted := PlaceFree(order, answer);
      return if accepted then None else Some(Rejected);
    }

    /** A well-formed order under a free identifier. */
    method PlaceFree(order: Submission, answer: Answer) returns (accepted: bool)
      requires order.intent !in placed && status == Running && !complete && answer.wellFormed
      modifies this`status, this`nextId, this`waiting, this`requests, this`placed, this`submissions
      ensures (Model(), if accepted then None else Some(Rejected)) == Submit(old(Model()), order, answer)
      ensures placed == old(placed)[order.intent := Placed(order.role, order.unit, order.kind, tick, accepted, AtOnce(answer))]
      ensures submissions == old(submissions) + (if accepted then [order] else [])
    {
      accepted := Send(order, answer);
      placed := placed[order.intent := Placed(order.role, order.unit, order.kind, tick, accepted, AtOnce(answer))];
      if accepted {
        submissions := submissions + [order];
      }
    }

    /** The role decides a request that is its to decide. */
    method DecideRequest(role: nat, request: nat, approve: bool, sending: Sending) returns (accepted: bool)
      modifies this`waiting, this`requests, this`nextId, this`status
      ensures var sent := Resolve(old(Orders()), SeatsOf(old(Model())), old(nextId), role, request, approve, sending);
              && Orders() == sent.traffic && nextId == sent.next && accepted == sent.accepted
              && status == if sent.halted then Paused else old(status)
    {
      if request !in requests {
        return false;
      }
      var q := requests[request];
      if q.step >= |q.steps| || q.steps[q.step] != role || !q.standing.PendingHuman? {
        return false;
      }
      accepted := true;
      q := q.(decisions := q.decisions + [Verdict(role, approve)]);
      if !approve {
        requests := requests[request := q.(standing := Closed)];
        return;
      }
      SendOn(request, q.(step := q.step + 1), sending);
    }

    /** An approved request goes on to its next deciding role, or its order to the unit. */
    method SendOn(request: nat, q: Request, sending: Sending)
      requires q.step <= |q.steps|
      modifies this`waiting, this`requests, this`nextId, this`status
      ensures var sent := Approve(old(Orders()), SeatsOf(old(Model())), old(nextId), request, q, sending);
              && Orders() == sent.traffic && nextId == sent.next && status == if sent.halted then Paused else old(status)
    {
      var last := q.step == |q.steps|;
      if (if last then !q.executable || q.intent.None? else q.steps[q.step] !in roles) {
        requests := requests[request := q.(standing := Closed)];
        return;
      }
      var message := Transmit(sending);
      if message.None? {
        requests := requests[request := q.(standing := Closed)];
        return;
      }
      if sending == Local {
        requests := requests[request := if last then q.(intent := None, standing := Closed)
                                        else q.(standing := StandingOf(q.steps[q.step]))];
      } else {
        waiting := waiting[message.value := if last then Approval(request, q.intent.value, q.unit) else Activate(request)];
        requests := requests[request := q.(intent := if last then None else q.intent, standing := InTransit(message.value))];
      }
    }

    /** One action of a decision being carried out. */
    method CarryOut(role: nat, o: Observation, a: Action, namespace: nat, index: nat, answer: Answer) returns (outcome: Outcome)
      requires role in connections && role in roles
      modifies this`status, this`nextId, this`waiting, this`requests, this`connections, this`placed, this`submissions
      ensures (Model(), outcome) == DecideOne(old(Model()), role, o, a, namespace, index, answer)
    {
      if !Visible(o, a) {
        return Refused(NotObserved);
      }
      match a {
        case Order(unit, kind) => outcome := GiveOrder(role, a, namespace, index, answer);
        case SelectGoal(goal, units) =>
          if Goal(goal, role) !in goals || exists unit :: unit in units && unit !in roles[role].units {
            return Refused(InvalidGoal);
          }
          var c := connections[role];
          connections := connections[role := c.(assignments := WithGoal(c.assignments, units, goal))];
          return Accepted(a);
        case AuthorityDecision(request, approve) =>
          var accepted := DecideRequest(role, request, approve, answer.sending);
          return if accepted then Accepted(a) else Refused(Rejected);
      }
    }

    /** A visible order: within the role's units, to a unit that is free. */
    method GiveOrder(role: nat, a: Action, namespace: nat, index: nat, answer: Answer) returns (outcome: Outcome)
      requires role in connections && role in roles && a.Order?
      modifies this`status, this`nextId, this`waiting, this`requests, this`connections, this`placed, this`submissions
      ensures (Model(), outcome) == GivenOrder(old(Model()), role, a, namespace, index, answer)
    {
      if a.unit !in roles[role].units {
        return Refused(UnitScope);
      }
      var busy := IsBusy(a.unit);
      if busy {
        return Refused(OrderPending);
      }
      var intent, c := Named(namespace, index), connections[role];
      var refusal := Place(Submission(intent, role, a.unit, a.kind, true), answer);
      if refusal.Some? {
        return Refused(refusal.value);
      }
      connections := connections[role := c.(receipts := Pushed(c.receipts, intent))];
      c := connections[role];
      connections := connections[role := c.(assignments := c.assignments - {a.unit})];
      return Accepted(a);
    }

    method CarryOutAll(role: nat, o: Observation, d: Decision, answers: seq<Answer>) returns (results: seq<Outcome>)
      requires role in connections && role in roles
      modifies this`status, this`nextId, this`waiting, this`requests, this`connections, this`placed, this`submissions
      ensures (Model(), results) == DecideAll(old(Model()), role, o, d, 0, answers)
    {
      results := [];
      var index := 0;
      ContinuedNothing(DecideAll(Model(), role, o, d, 0, answers));
      while index < |d.actions|
        invariant index <= |d.actions| && role in connections && role in roles
        invariant complete == old(complete) && tick == old(tick) && roles == old(roles)
        invariant DecideAll(old(Model()), role, o, d, 0, answers)
               == Continued(results, DecideAll(Model(), role, o, d, index, answers))
      {
        ghost var before := Model();
        var outcome := CarryOut(role, o, d.actions[index], d.id, index, AnswerAt(answers, index));
        ContinuedTwice(results, outcome, DecideAll(Model(), role, o, d, index + 1, answers));
        results := results + [outcome];
        index := index + 1;
      }
      assert results + [] == results;
    }

    method Decide(token: nat, d: Decision, now: nat, answers: seq<Answer>) returns (response: Response)
      requires forall r :: r in connections && connections[r].mode == External ==> r in roles
      requires Valid()
      modifies this
      ensures Valid() && old(noted) <= noted
      ensures (Model(), response) == Agents.Decide(old(Model()), token, d, now, answers)
    {
      var held := Authenticate(Model(), token);
      if held.None? {
        return Failed(Unauthorized);
      }
      var role, c := held.value, connections[held.value];
      if d.protocol != PROTOCOL_VERSION || d.generation != c.generation {
        return Failed(StaleGeneration);
      }
      if d.id in decisions {
        var stored := decisions[d.id];
        return if stored.role == role && stored.decision == d then Replied(stored.result) else Failed(DecisionConflict);
      }
      if !Open(Model(), role, d.observation, now) {
        return Failed(DecisionClosed);
      }
      if TooLarge(d) {
        return Failed(DecisionSize);
      }
      var results := CarryOutAll(role, c.work.value, d, answers);
      Close(role, d, results, c.generation, now);
      return Replied(results);
    }

    /** The observation is answered: withdraw it, end any fallback, and store the decision for replays. */
    method Close(role: nat, d: Decision, results: seq<Outcome>, generation: nat, now: nat)
      requires role in connections
      requires Valid()
      modifies this
      ensures Valid() && old(noted) <= noted
      ensures var s := old(Model());
              Model() == s.(
                connections := s.connections[role := s.connections[role].(work := None, fallback := false)],
                history := Noted(s.history, Note(role, Answered)), decisions := s.decisions[d.id := Stored(role, d, results)],
                applied := s.applied + [Applied(d.id, role, d.observation, d.generation, generation, now)])
    {
      connections := connections[role := connections[role].(work := None, fallback := false)];
      Event(Note(role, Answered));
      decisions := decisions[d.id := Stored(role, d, results)];
      applied := applied + [Applied(d.id, role, d.observation, d.generation, generation, now)];
    }
  }

  /** A visible order of a decision, with the release of its unit. */
  function GivenOrder(s: State, role: nat, a: Action, namespace: nat, index: nat, answer: Answer): (State, Outcome)
    requires role in s.connections && role in s.roles && a.Order?
  {
    var (t, outcome) := Act(s, role, a, namespace, index, true, answer);
    if outcome.Accepted? then
      (t.(connections := t.connections[role := t.connections[role].(
          assignments := t.connections[role].assignments - {a.unit})]), outcome)
    else (t, outcome)
  }

  function Continued(results: seq<Outcome>, rest: (State, seq<Outcome>)): (State, seq<Outcome>) {
    (rest.0, results + rest.1)
  }

  lemma ContinuedTwice(results: seq<Outcome>, outcome: Outcome, rest: (State, seq<Outcome>))
    ensures Continued(results, (rest.0, [outcome] + rest.1)) == Continued(results + [outcome], rest)
  {
    assert results + ([outcome] + rest.1) == (results + [outcome]) + rest.1;
  }

  lemma ContinuedNothing(rest: (State, seq<Outcome>))
    ensures Continued([], rest) == rest
  {
    assert [] + rest.1 == rest.1;
  }

  /** A role's reassignment looks at no other role. */
  lemma SameReassignment(a: map<nat, Role>, b: map<nat, Role>, c: map<nat, Connection>, d: map<nat, Connection>, r: nat)
    requires a.Keys == b.Keys && r in c && r in d && c[r] == d[r] && (r in a ==> a[r] == b[r])
    ensures Reassigned(a, r, c[r]) == Reassigned(b, r, d[r])
    ensures r in a ==> ReassignedRole(a, c, r) == ReassignedRole(b, d, r)
  {}

  lemma ReassignedWhole(s: State, roles: map<nat, Role>, connections: map<nat, Connection>, idle: map<nat, Connection>)
    requires idle.Keys == s.connections.Keys == connections.Keys && roles.Keys == s.roles.Keys
    requires forall r :: r in idle ==> idle[r] == Invalidated(s.connections[r])
    requires forall r :: r in idle ==> connections[r] == Reassigned(s.roles, r, idle[r])
    requires forall r :: r in roles ==> roles[r] == ReassignedRole(s.roles, idle, r)
    ensures Agents.AuthorityChanged(s) == s.(roles := roles, connections := connections)
  {
    var t := Agents.AuthorityChanged(s);
    forall r | r in idle ensures t.connections[r] == connections[r] {
      ReassignmentIgnoresWork(s.roles, r, s.connections[r]);
    }
    forall r | r in roles ensures t.roles[r] == roles[r] {
      SameMode(s.roles, s.connections, idle, r);
    }
    assert t.connections == connections && t.roles == roles;
  }

  lemma ReassignmentIgnoresWork(roles: map<nat, Role>, r: nat, c: Connection)
    ensures Reassigned(roles, r, Invalidated(c)) == Reassigned(roles, r, c)
  {
  }

  lemma SameMode(roles: map<nat, Role>, connections: map<nat, Connection>, idle: map<nat, Connection>, r: nat)
    requires r in roles && idle.Keys == connections.Keys && (r in idle ==> idle[r] == Invalidated(connections[r]))
    ensures ReassignedRole(roles, idle, r) == ReassignedRole(roles, connections, r)
  {
  }
}
