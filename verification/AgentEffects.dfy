/** What the operations on external control leave behind, field by field, for what other results only bound. */
module AgentEffects {
  import opened Ordered
  import opened OrderTraffic
  import opened Agents
  import opened AgentSafety
  import opened AgentRuns
  import OrderRequests

  // ---- Assignment ------------------------------------------------------------------------------------

  /** A connection as new: nothing asked, nothing planned, nothing remembered. */
  ghost predicate Unused(c: Connection) {
    && c.work.None? && !c.fallback && c.assignments == map[] && c.attempts == map[] && c.receipts == [] && c.issued == []
    && c.lastPlanTick.None? && c.lastEvaluationTick.None? && c.lastWorkTick.None? && c.lastObservedTick == 0
  }

  /** An assignment is refused, without a change, for a timeout outside one second to five minutes or an unknown
      role. Otherwise the role loses its holder, is played by an AI exactly if the mode is not human, and has
      an unused connection under its new generation; no other role is touched. */
  lemma ConfigureExactly(s: State, role: nat, mode: Mode, timeoutMs: nat, token: nat)
    ensures var (t, refusal) := Configure(s, role, mode, timeoutMs, token);
            && (refusal == Some(InvalidTimeout) <==> timeoutMs < 1_000 || timeoutMs > 300_000)
            && (refusal == Some(RoleNotFound) <==> 1_000 <= timeoutMs <= 300_000 && role !in s.roles)
            && (refusal.Some? ==> t == s && (refusal == Some(InvalidTimeout) || refusal == Some(RoleNotFound)))
            && (refusal.None? ==>
                  && t == s.(roles := t.roles, connections := t.connections, history := t.history)
                  && (|s.history| <= 100 ==> t.history == Latest(s.history + [Note(role, Assigned)], 100))
                  && t.roles.Keys == s.roles.Keys && (forall r :: r in s.roles && r != role ==> t.roles[r] == s.roles[r])
                  && t.roles[role].units == s.roles[role].units && !t.roles[role].owned
                  && t.roles[role].generation == s.roles[role].generation + (if s.roles[role].owned then 2 else 1)
                  && (t.roles[role].aiControlled <==> mode != Human) && (t.roles[role].claimable <==> mode == Human)
                  && t.connections.Keys == s.connections.Keys + {role}
                  && (forall r :: r in s.connections && r != role ==> t.connections[r] == s.connections[r])
                  && Unused(t.connections[role]) && t.connections[role].mode == mode
                  && t.connections[role].generation == t.roles[role].generation
                  && t.connections[role].timeoutMs == timeoutMs)
  {
    if |s.history| <= 100 {
      NotedIsLatest(s.history, Note(role, Assigned));
    }
  }

  // ---- Observations ----------------------------------------------------------------------------------

  ghost predicate Overdue(c: Connection, now: nat) {
    c.work.Some? && c.work.value.deadlineMs <= now
  }

  /** The role is asked now: nothing is open in time, and it was last asked five ticks ago or more. */
  ghost predicate AsksNow(c: Connection, tick: nat, now: nat) {
    (c.work.None? || Overdue(c, now)) && (c.lastWorkTick.None? || tick >= c.lastWorkTick.value + 5)
  }

  /** What advance makes of an external role's connection: overdue work is withdrawn, and if the role is asked
      now, it is shown its own view and the requests there are, under its generation, with its own timeout. */
  ghost predicate AdvancedTo(s: State, c: Connection, d: Connection, role: nat, now: nat, views: map<nat, View>) {
    && d == c.(work := d.work, fallback := c.fallback || Overdue(c, now), lastWorkTick := d.lastWorkTick, issued := d.issued)
    && (if AsksNow(c, s.tick, now) then
          && d.work.Some? && d.work.value.generation == c.generation
          && d.work.value.deadlineMs == (if now + c.timeoutMs <= U64_MAX then now + c.timeoutMs else U64_MAX)
          && d.work.value.tracks == (if role in views then views[role].tracks else {})
          && (forall r :: r in d.work.value.requests <==> role in views && r in views[role].requests && r in s.traffic.requests)
          && d.lastWorkTick == Some(s.tick) && d.issued == c.issued + [s.tick]
        else
          d.work == (if Overdue(c, now) then None else c.work) && d.lastWorkTick == c.lastWorkTick && d.issued == c.issued)
  }

  lemma OneAdvances(s: State, role: nat, now: nat, views: map<nat, View>)
    requires role in s.connections
    ensures AdvancedTo(s, s.connections[role], AdvanceRole(s, role, now, views).connections[role], role, now, views)
  {
    ExpiresOnly(s, role, now);
    var t := Expire(s, role, now);
    IssuesOnly(t, t.connections[role], role, now, views);
  }

  lemma ExpiresOnly(s: State, role: nat, now: nat)
    requires role in s.connections
    ensures var c, d := s.connections[role], Expire(s, role, now).connections[role];
            d == c.(work := if Overdue(c, now) then None else c.work, fallback := c.fallback || Overdue(c, now))
  {
  }

  /** Once overdue work is withdrawn. */
  lemma IssuesOnly(s: State, c: Connection, role: nat, now: nat, views: map<nat, View>)
    requires role in s.connections && c == s.connections[role] && !Overdue(c, now)
    ensures AdvancedTo(s, c, Issue(s, role, now, views).connections[role], role, now, views)
  {
  }

  lemma {:induction false} AllAdvance(s: State, roles: seq<nat>, now: nat, views: map<nat, View>, role: nat)
    requires Ascending(roles) && role in roles && forall r :: r in roles ==> r in s.connections
    ensures var t := AdvanceRoles(s, roles, now, views);
            role in t.connections && AdvancedTo(s, s.connections[role], t.connections[role], role, now, views)
    decreases |roles|
  {
    var t := AdvanceRole(s, roles[0], now, views);
    AscendingTail(roles);
    if role == roles[0] {
      OneAdvances(s, role, now, views);
      AdvanceRolesFrame(t, roles[1..], now, views);
    } else {
      AllAdvance(t, roles[1..], now, views, role);
    }
  }

  /** Advancing a running game does exactly that to every external role's connection and nothing to any other. */
  lemma AdvanceExactly(s: State, now: nat, views: map<nat, View>, role: nat)
    requires s.status == Running && !s.complete && role in s.connections
    ensures var t := Advance(s, now, views);
            && role in t.connections
            && (if s.connections[role].mode == External
                then AdvancedTo(s, s.connections[role], t.connections[role], role, now, views)
                else t.connections[role] == s.connections[role])
  {
    if s.connections[role].mode == External {
      AllAdvance(s, ExternalRoles(s), now, views, role);
    } else {
      AdvanceRolesFrame(s, ExternalRoles(s), now, views);
    }
  }

  // ---- The history -------------------------------------------------------------------------------------

  /** Who is overdue, in this order. */
  ghost function Timeouts(s: State, roles: seq<nat>, now: nat): (notes: seq<Note>)
    requires forall r :: r in roles ==> r in s.connections
    ensures forall n :: n in notes <==> n.kind == TimedOut && n.role in roles && Overdue(s.connections[n.role], now)
    decreases |roles|
  {
    if roles == [] then []
    else (if Overdue(s.connections[roles[0]], now) then [Note(roles[0], TimedOut)] else []) + Timeouts(s, roles[1..], now)
  }

  lemma TimeoutsSame(s: State, t: State, roles: seq<nat>, now: nat)
    requires forall r :: r in roles ==> r in s.connections && r in t.connections && t.connections[r] == s.connections[r]
    ensures Timeouts(t, roles, now) == Timeouts(s, roles, now)
    decreases |roles|
  {
    if roles != [] {
      TimeoutsSame(s, t, roles[1..], now);
    }
  }

  lemma NotedIsLatest(history: seq<Note>, note: Note)
    requires |history| <= 100
    ensures Noted(history, note) == Latest(history + [note], 100)
  {
    LatestIsSuffix(history + [note], 100);
  }

  lemma LatestTwice(history: seq<Note>, notes: seq<Note>, n: nat)
    ensures Latest(Latest(history, n) + notes, n) == Latest(history + notes, n)
  {
    LatestIsSuffix(history, n);
    LatestIsSuffix(history + notes, n);
    LatestIsSuffix(Latest(history, n) + notes, n);
  }

  /** The notes one role's part of advance makes. */
  lemma OneTimesOut(s: State, role: nat, now: nat, views: map<nat, View>)
    requires role in s.connections && |s.history| <= 100
    ensures AdvanceRole(s, role, now, views).history == Latest(s.history + Timeouts(s, [role], now), 100)
  {
    assert Timeouts(s, [role], now) == if Overdue(s.connections[role], now) then [Note(role, TimedOut)] else [];
    if Overdue(s.connections[role], now) {
      NotedIsLatest(s.history, Note(role, TimedOut));
    } else {
      assert s.history + [] == s.history;
    }
  }

  lemma {:induction false} AllTimeOut(s: State, roles: seq<nat>, now: nat, views: map<nat, View>)
    requires Ascending(roles) && |s.history| <= 100 && forall r :: r in roles ==> r in s.connections
    ensures AdvanceRoles(s, roles, now, views).history == Latest(s.history + Timeouts(s, roles, now), 100)
    decreases |roles|
  {
    if roles == [] {
      assert s.history + [] == s.history;
    } else {
      var t, rest := AdvanceRole(s, roles[0], now, views), roles[1..];
      OneTimesOut(s, roles[0], now, views);
      AscendingTail(roles);
      AllTimeOut(t, rest, now, views);
      TimeoutsSame(s, t, rest, now);
      TimeoutsSplit(s, roles, now);
      NotesJoin(s.history, Timeouts(s, [roles[0]], now), Timeouts(s, rest, now), Timeouts(s, roles, now));
    }
  }

  lemma TimeoutsSplit(s: State, roles: seq<nat>, now: nat)
    requires roles != [] && forall r :: r in roles ==> r in s.connections
    ensures Timeouts(s, roles, now) == Timeouts(s, [roles[0]], now) + Timeouts(s, roles[1..], now)
  {
    assert [roles[0]][1..] == [];
  }

  lemma NotesJoin(history: seq<Note>, first: seq<Note>, rest: seq<Note>, all: seq<Note>)
    requires all == first + rest
    ensures Latest(Latest(history + first, 100) + rest, 100) == Latest(history + all, 100)
  {
    LatestTwice(history + first, rest, 100);
    assert history + first + rest == history + all;
  }

  /** Advancing a running game notes, in ascending order, the external roles whose time is up, and nobody else. */
  lemma AdvanceNotesTimeouts(s: State, now: nat, views: map<nat, View>)
    requires s.status == Running && !s.complete && |s.history| <= 100
    ensures Ascending(ExternalRoles(s))
    ensures Advance(s, now, views).history == Latest(s.history + Timeouts(s, ExternalRoles(s), now), 100)
  {
    AllTimeOut(s, ExternalRoles(s), now, views);
  }

  /** A decision that is carried out leaves its role without open work or fallback and is noted as answered. */
  lemma DecisionCloses(s: State, token: nat, d: Decision, now: nat, answers: seq<Answer>)
    requires Inv(s) && Enabled(s, DecideStep(token, d, now, answers)) && |s.history| <= 100
    requires d.id !in s.decisions && d.id in Decide(s, token, d, now, answers).0.decisions
    ensures var t := Decide(s, token, d, now, answers).0; var role := t.decisions[d.id].role;
            && t.history == Latest(s.history + [Note(role, Answered)], 100)
            && role in t.connections && t.connections[role].work.None? && !t.connections[role].fallback
  {
    DecideExactly(s, token, d, now, answers);
    var held := Authenticate(s, token);
    DecidedShape(s, held.value, d, now, answers);
    NotedIsLatest(s.history, Note(held.value, Answered));
  }

  // ---- Authority edits -------------------------------------------------------------------------------

  /** An edit installs exactly the defined roles: units and control as defined, but control by the connection's
      mode where there is one; a role that was there keeps its holder and generation, one higher if an AI plays
      it under a connection; a new one starts without either. A connection loses its work and the goals of
      units its role no longer commands, and no others. */
  lemma EditExactly(s: State, definitions: map<nat, RoleDefinition>, r: nat)
    ensures var t := EditAuthority(s, definitions);
            && (r in t.roles <==> r in definitions) && (r in t.connections <==> r in s.connections)
            && (r in definitions ==> RoleEdited(s, t.roles[r], definitions[r], r))
            && (r in s.connections ==>
                  var c, d := s.connections[r], t.connections[r];
                  && d == Invalidated(c).(generation := d.generation, assignments := d.assignments)
                  && d.generation == (if r in definitions && c.mode != Human then t.roles[r].generation else c.generation)
                  && (forall unit :: unit in d.assignments <==>
                        unit in c.assignments && (r in definitions ==> unit in definitions[r].units))
                  && (forall unit :: unit in d.assignments ==> d.assignments[unit] == c.assignments[unit]))
  {
  }

  ghost predicate RoleEdited(s: State, role: Role, d: RoleDefinition, r: nat) {
    var ai := if r in s.connections then s.connections[r].mode != Human else d.aiControlled;
    && role.units == d.units && role.aiControlled == ai
    && role.claimable == (if r in s.connections then !ai else d.claimable)
    && (role.owned <==> r in s.roles && s.roles[r].owned)
    && role.generation == (if r in s.roles then s.roles[r].generation else 0) + (if r in s.connections && ai then 1 else 0)
  }

  // ---- Orders and requests -----------------------------------------------------------------------------

  lemma SeatsExactly(s: State, r: nat)
    ensures r in SeatsOf(s).known <==> r in s.roles
    ensures r in SeatsOf(s).attended <==>
              (r in s.roles && s.roles[r].owned) || (r in s.connections && s.connections[r].mode != Human)
  {
  }

  /** The orders and requests on their way, as the chain of command sees them. */
  ghost function Way(s: State): OrderRequests.State {
    OrderRequests.State(s.traffic, s.nextId, [])
  }

  ghost predicate Follows(s: State, t: State, e: OrderRequests.Event) {
    OrderRequests.Enabled(Way(s), e)
    && (var w := OrderRequests.Apply(Way(s), e); t.traffic == w.traffic && t.nextId == w.next)
  }

  /** An order of a controller is, for the orders on their way, that order given to that unit; nothing else of
      what the action does touches them. */
  lemma OrdersFollowTheChain(s: State, role: nat, unit: nat, kind: OrderKind, namespace: nat, index: nat, external: bool, answer: Answer)
    requires role in s.connections && role in s.roles
    ensures var t := Act(s, role, Order(unit, kind), namespace, index, external, answer).0;
            || (t.traffic == s.traffic && t.nextId == s.nextId)
            || Follows(s, t, OrderRequests.Give(SeatsOf(s), Named(namespace, index), unit, kind.Move?, answer))
  {
  }

  /** And its decision of a request is that decision by that role. */
  lemma DecisionsFollowTheChain(s: State, role: nat, request: nat, approve: bool, namespace: nat, index: nat, external: bool, answer: Answer)
    requires role in s.connections && role in s.roles
    ensures var t := Act(s, role, AuthorityDecision(request, approve), namespace, index, external, answer).0;
            Follows(s, t, OrderRequests.Decide(SeatsOf(s), role, request, approve, answer.sending))
  {
  }

  /** An accepted order under a free identifier was given on its way. */
  lemma AcceptedOrdersAreGiven(s: State, role: nat, unit: nat, kind: OrderKind, namespace: nat, index: nat, external: bool, answer: Answer)
    requires role in s.connections && role in s.roles && Named(namespace, index) !in s.placed
    requires |s.connections[role].receipts| <= 64
    requires Act(s, role, Order(unit, kind), namespace, index, external, answer).1.Accepted?
    ensures var t := Act(s, role, Order(unit, kind), namespace, index, external, answer).0;
            && Follows(s, t, OrderRequests.Give(SeatsOf(s), Named(namespace, index), unit, kind.Move?, answer))
            && t.connections[role].receipts == Latest(s.connections[role].receipts + [Named(namespace, index)], 64)
  {
    var receipts := s.connections[role].receipts + [Named(namespace, index)];
    LatestIsSuffix(receipts, 64);
  }

  /** A new order is handed over exactly if the game runs and the order is sound and let through. */
  lemma SubmitsExactly(s: State, order: Submission, answer: Answer)
    requires order.intent !in s.placed
    ensures Submit(s, order, answer).0.submissions == s.submissions + (
              if s.status == Running && !s.complete && answer.wellFormed && Passes(SeatsOf(s), answer) then [order] else [])
  {
    DispatchNumbers(s.traffic, SeatsOf(s), s.nextId, order.intent, order.unit, order.kind.Move?, answer);
  }

  /** The same order again in the same tick gets the answer the first got, whatever has happened to the game in
      between, and does nothing; and any other order under that identifier conflicts. */
  lemma RepeatGetsFirstAnswer(s: State, order: Submission, answer: Answer, t: State, later: Answer, other: Submission)
    requires order.intent !in s.placed && order.intent in Submit(s, order, answer).0.placed
    requires t.tick == s.tick && order.intent in t.placed
    requires t.placed[order.intent] == Submit(s, order, answer).0.placed[order.intent]
    ensures Submit(t, order, later) == (t, Submit(s, order, answer).1)
    ensures other.intent == order.intent && (other.role != order.role || other.unit != order.unit || other.kind != order.kind) ==>
              Submit(t, other, later) == (t, Some(IntentConflict))
  {
  }
}
