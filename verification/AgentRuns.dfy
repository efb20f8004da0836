/** Guarantees of external control over whole runs: decisions are carried out at most once and only
    under the assignment that asked for them; deadlines, pacing and fallback. */
module AgentRuns {
  import opened Ordered
  import opened OrderTraffic
  import opened Agents
  import opened AgentSafety

  /** In every state any run reaches: no decision identifier was carried out twice, no observation
      was answered twice, each decision carried the generation then current, no order of a decision
      was submitted twice, and observations of one role since its work was last invalidated are at
      least five ticks apart. */
  lemma DecisionsAppliedAtMostOnce(s: State, steps: seq<Step>)
    requires Fresh(s) && Valid(s, steps)
    ensures var t := Run(s, steps);
            && (forall i, j :: 0 <= i < j < |t.applied| ==>
                  t.applied[i].decision != t.applied[j].decision && t.applied[i].observation != t.applied[j].observation)
            && (forall i :: 0 <= i < |t.applied| ==>
                  t.applied[i].generation == t.applied[i].assignment
                  && t.applied[i].decision in t.decisions && t.decisions[t.applied[i].decision].role == t.applied[i].role)
            && (forall i, j :: 0 <= i < j < |t.submissions| ==> t.submissions[i].intent != t.submissions[j].intent)
            && (forall r, i, j :: r in t.connections && 0 <= i < j < |t.connections[r].issued| ==>
                  t.connections[r].issued[j] >= t.connections[r].issued[i] + WORK_INTERVAL_TICKS)
            && |t.history| <= HISTORY
  {
    FreshInv(s);
    RunKeepsInv(s, steps);
    var t := Run(s, steps);
    forall r | r in t.connections ensures Spaced(t.connections[r].issued) {
      assert ConnectionOk(t, r);
    }
  }

  lemma SameCredential(s: State, t: State, token: nat)
    requires t.connections.Keys == s.connections.Keys
    requires forall r :: r in s.connections ==>
               t.connections[r].mode == s.connections[r].mode && t.connections[r].token == s.connections[r].token
    ensures Authenticate(t, token) == Authenticate(s, token)
  {
    forall r ensures r in Holders(s, token) <==> r in Holders(t, token) {}
    assert Holders(s, token) == Holders(t, token);
  }

  /** Carrying out a decision changes no assignment and no credential. */
  lemma DecidedKeepsAssignments(s: State, role: nat, d: Decision, now: nat, answers: seq<Answer>, token: nat)
    requires Acceptable(s, role, d, now)
    ensures var t := Decided(s, role, d, now, answers);
            && Authenticate(t, token) == Authenticate(s, token)
            && t.connections.Keys == s.connections.Keys && t.roles == s.roles
            && (forall r :: r in s.connections ==>
                  t.connections[r].generation == s.connections[r].generation && t.connections[r].mode == s.connections[r].mode)
  {
    var t := Decided(s, role, d, now, answers);
    DecidedShape(s, role, d, now, answers);
    SameCredential(s, t, token);
  }

  /** An identical replay under the current assignment is answered from storage and changes nothing. */
  lemma ReplayChangesNothing(s: State, token: nat, d: Decision, now: nat, later: nat, answers: seq<Answer>, others: seq<Answer>)
    requires Inv(s) && Enabled(s, DecideStep(token, d, now, answers))
    requires |Decide(s, token, d, now, answers).0.applied| > |s.applied|
    ensures var (t, response) := Decide(s, token, d, now, answers);
            (forall r :: r in t.connections && t.connections[r].mode == External ==> r in t.roles)
            && Decide(t, token, d, later, others) == (t, response)
  {
    DecideExactly(s, token, d, now, answers);
    var held := Authenticate(s, token).value;
    DecidedKeepsAssignments(s, held, d, now, answers, token);
    DecidedShape(s, held, d, now, answers);
  }

  // ---- Fencing ----------------------------------------------------------------------------

  /** From number onward, the role is only asked while the game runs, and only answers, under later identifiers. */
  ghost predicate FencedFrom(t: State, role: nat, start: nat, number: nat) {
    && start <= |t.applied| && number <= t.nextId
    && (t.status == Running && role in t.connections && t.connections[role].work.Some? ==> t.connections[role].work.value.id >= number)
    && (forall i :: start <= i < |t.applied| && t.applied[i].role == role ==> t.applied[i].observation >= number)
  }

  lemma AdvanceKeepsFence(s: State, q: nat, now: nat, views: map<nat, View>, role: nat, start: nat, number: nat)
    requires q in s.connections && FencedFrom(s, role, start, number)
    ensures FencedFrom(AdvanceRole(s, q, now, views), role, start, number)
  {}

  lemma {:induction false} AdvanceRolesKeepFence(s: State, roles: seq<nat>, now: nat, views: map<nat, View>, role: nat, start: nat, number: nat)
    requires (forall r :: r in roles ==> r in s.connections) && FencedFrom(s, role, start, number)
    ensures FencedFrom(AdvanceRoles(s, roles, now, views), role, start, number)
    decreases |roles|
  {
    if roles != [] {
      AdvanceKeepsFence(s, roles[0], now, views, role, start, number);
      AdvanceRolesKeepFence(AdvanceRole(s, roles[0], now, views), roles[1..], now, views, role, start, number);
    }
  }

  lemma DecideKeepsFence(s: State, token: nat, d: Decision, now: nat, answers: seq<Answer>, role: nat, start: nat, number: nat)
    requires Inv(s) && Enabled(s, DecideStep(token, d, now, answers)) && FencedFrom(s, role, start, number)
    ensures FencedFrom(Decide(s, token, d, now, answers).0, role, start, number)
  {
    DecideExactly(s, token, d, now, answers);
    var held := Authenticate(s, token);
    if held.Some? && Acceptable(s, held.value, d, now) {
      DecidedKeepsFence(s, held.value, d, now, answers, role, start, number);
    }
  }

  lemma DecidedKeepsFence(s: State, held: nat, d: Decision, now: nat, answers: seq<Answer>, role: nat, start: nat, number: nat)
    requires Acceptable(s, held, d, now) && FencedFrom(s, role, start, number)
    ensures FencedFrom(Decided(s, held, d, now, answers), role, start, number)
  {
    DecidedShape(s, held, d, now, answers);
  }

  lemma StepKeepsFence(s: State, step: Step, role: nat, start: nat, number: nat)
    requires Inv(s) && Enabled(s, step) && FencedFrom(s, role, start, number)
    ensures FencedFrom(Apply(s, step), role, start, number)
  {
    match step
    case AdvanceStep(now, views) => AdvanceRolesKeepFence(s, ExternalRoles(s), now, views, role, start, number);
    case DecideStep(token, d, now, answers) => DecideKeepsFence(s, token, d, now, answers, role, start, number);
    case PlannerStep(planned) =>
      if role in s.connections {
        assert PlannerKeeps(s.connections[role], planned.connections[role]);
      } else if role in planned.connections {
        assert PlannerKeeps(NewConnection(Deterministic, s.roles[role].generation, None, 30_000), planned.connections[role]);
      }
    case _ =>
  }

  lemma {:induction false} RunKeepsFence(s: State, steps: seq<Step>, role: nat, start: nat, number: nat)
    requires Inv(s) && Valid(s, steps) && FencedFrom(s, role, start, number)
    ensures FencedFrom(Run(s, steps), role, start, number)
    decreases |steps|
  {
    if steps != [] {
      ApplyKeepsInv(s, steps[0]);
      StepKeepsFence(s, steps[0], role, start, number);
      RunKeepsFence(Apply(s, steps[0]), steps[1..], role, start, number);
    }
  }

  /** The role's work is withdrawn, or left open in a game that halts: the role is reassigned, authority
      changes, or the game stops or starts. */
  ghost predicate Withdraws(s: State, step: Step, role: nat)
    requires Enabled(s, step)
  {
    match step
    case ConfigureStep(r, mode, timeoutMs, token) => r == role && Configure(s, r, mode, timeoutMs, token).1.None?
    case EditStep(_) => true
    case SetStatus(status) => status != s.status
    case Halt => true
    case AdvanceStep(_, _) => s.status != Running || s.complete
    case _ => false
  }

  /** No decision outlives its assignment. Whatever happens after a role's work is withdrawn, every
      decision carried out for it from then on answers an observation issued after the withdrawal. */
  lemma {:induction false} WithdrawnWorkIsNeverAnswered(s: State, step: Step, rest: seq<Step>, role: nat)
    requires Inv(s) && Valid(s, [step] + rest) && Withdraws(s, step, role)
    ensures var t := Run(s, [step] + rest);
            forall i :: |s.applied| <= i < |t.applied| && t.applied[i].role == role ==> t.applied[i].observation >= s.nextId
  {
    assert ([step] + rest)[0] == step && ([step] + rest)[1..] == rest;
    var u := Apply(s, step);
    ApplyKeepsInv(s, step);
    assert FencedFrom(u, role, |s.applied|, s.nextId);
    RunKeepsFence(u, rest, role, |s.applied|, s.nextId);
  }

  /** The lease generation of an assigned role has not fallen behind its assignment. */
  ghost predicate GenerationHeld(s: State, role: nat) {
    role in s.connections ==> role in s.roles && s.connections[role].generation <= s.roles[role].generation
  }

  ghost predicate KeepsRole(steps: seq<Step>, role: nat) {
    forall k :: 0 <= k < |steps| && steps[k].EditStep? ==> role in steps[k].definitions
  }

  ghost predicate AtLeast(t: State, role: nat, start: nat, generation: nat) {
    && start <= |t.applied|
    && role in t.connections && GenerationHeld(t, role) && t.connections[role].generation >= generation
    && (forall i :: start <= i < |t.applied| && t.applied[i].role == role ==> t.applied[i].generation >= generation)
  }

  lemma AdvanceRoleKeepsGenerations(s: State, role: nat, now: nat, views: map<nat, View>)
    requires role in s.connections
    ensures var t := AdvanceRole(s, role, now, views);
            t.connections.Keys == s.connections.Keys && t.roles == s.roles && t.applied == s.applied
            && forall r :: r in s.connections ==> t.connections[r].generation == s.connections[r].generation
  {}

  lemma {:induction false} AdvanceRolesKeepGenerations(s: State, roles: seq<nat>, now: nat, views: map<nat, View>)
    requires forall r :: r in roles ==> r in s.connections
    ensures var t := AdvanceRoles(s, roles, now, views);
            t.connections.Keys == s.connections.Keys && t.roles == s.roles && t.applied == s.applied
            && forall r :: r in s.connections ==> t.connections[r].generation == s.connections[r].generation
    decreases |roles|
  {
    if roles != [] {
      AdvanceRoleKeepsGenerations(s, roles[0], now, views);
      AdvanceRolesKeepGenerations(AdvanceRole(s, roles[0], now, views), roles[1..], now, views);
    }
  }

  lemma DecidedKeepsGeneration(s: State, held: nat, d: Decision, now: nat, answers: seq<Answer>, role: nat, start: nat, generation: nat)
    requires Acceptable(s, held, d, now) && AtLeast(s, role, start, generation)
    ensures AtLeast(Decided(s, held, d, now, answers), role, start, generation)
  {
    DecidedShape(s, held, d, now, answers);
  }

  lemma DecideKeepsGeneration(s: State, token: nat, d: Decision, now: nat, answers: seq<Answer>, role: nat, start: nat, generation: nat)
    requires Inv(s) && Enabled(s, DecideStep(token, d, now, answers)) && AtLeast(s, role, start, generation)
    ensures AtLeast(Decide(s, token, d, now, answers).0, role, start, generation)
  {
    DecideExactly(s, token, d, now, answers);
    var held := Authenticate(s, token);
    if held.Some? && Acceptable(s, held.value, d, now) {
      DecidedKeepsGeneration(s, held.value, d, now, answers, role, start, generation);
    }
  }

  lemma EditKeepsGeneration(s: State, definitions: map<nat, RoleDefinition>, role: nat, start: nat, generation: nat)
    requires AtLeast(s, role, start, generation) && role in definitions
    ensures AtLeast(EditAuthority(s, definitions), role, start, generation)
  {}

  lemma ConfigureKeepsGeneration(s: State, q: nat, mode: Mode, timeoutMs: nat, token: nat, role: nat, start: nat, generation: nat)
    requires AtLeast(s, role, start, generation)
    ensures AtLeast(Configure(s, q, mode, timeoutMs, token).0, role, start, generation)
  {}

  lemma StepKeepsGeneration(s: State, step: Step, role: nat, start: nat, generation: nat)
    requires Inv(s) && Enabled(s, step) && AtLeast(s, role, start, generation)
    requires step.EditStep? ==> role in step.definitions
    ensures AtLeast(Apply(s, step), role, start, generation)
  {
    match step
    case AdvanceStep(now, views) => AdvanceRolesKeepGenerations(s, ExternalRoles(s), now, views);
    case DecideStep(token, d, now, answers) => DecideKeepsGeneration(s, token, d, now, answers, role, start, generation);
    case EditStep(definitions) => EditKeepsGeneration(s, definitions, role, start, generation);
    case ConfigureStep(q, mode, timeoutMs, token) =>
      ConfigureKeepsGeneration(s, q, mode, timeoutMs, token, role, start, generation);
    case PlannerStep(planned) => assert PlannerKeeps(s.connections[role], planned.connections[role]);
    case _ =>
  }

  /** While authority edits keep a role, its generation never falls, so no decision made under an
      older generation is carried out later. */
  lemma {:induction false} OlderGenerationNeverApplied(s: State, steps: seq<Step>, role: nat, start: nat, generation: nat)
    requires Inv(s) && Valid(s, steps) && KeepsRole(steps, role) && AtLeast(s, role, start, generation)
    ensures AtLeast(Run(s, steps), role, start, generation)
    decreases |steps|
  {
    if steps != [] {
      ApplyKeepsInv(s, steps[0]);
      StepKeepsGeneration(s, steps[0], role, start, generation);
      assert forall k :: 0 <= k < |steps[1..]| ==> steps[1..][k] == steps[k + 1];
      OlderGenerationNeverApplied(Apply(s, steps[0]), steps[1..], role, start, generation);
    }
  }

  /** A reassignment raises the generation exactly when the lease generation, raised for the holder it
      turns out, has not fallen behind. */
  lemma {:induction false} ConfigureRaisesGeneration(s: State, role: nat, mode: Mode, timeoutMs: nat, token: nat)
    requires role in s.connections && Configure(s, role, mode, timeoutMs, token).1.None?
    ensures Configure(s, role, mode, timeoutMs, token).0.connections[role].generation > s.connections[role].generation
       <==> s.connections[role].generation <= Released(s.roles[role]).generation
  {}

  /** It can fall behind: an edit that drops a role no AI controls and no player holds, and one that brings
      it back, restart its leases. The next assignment repeats a generation, and a decision is carried out
      under generation 1 although generation 2 was in force before. */
  lemma GenerationCanRepeat() returns (s: State, before: seq<Step>, after: seq<Step>)
    ensures Fresh(s) && Valid(s, before) && Valid(Run(s, before), after)
    ensures var t := Run(s, before);
            1 in t.connections && t.connections[1].mode == External && t.connections[1].generation == 2 && t.applied == []
    ensures var t := Run(Run(s, before), after); |t.applied| == 1 && t.applied[0].role == 1 && t.applied[0].generation == 1
  {
    s := State(Running, false, 0, map[1 := Role({}, 0, false, true, false)], {}, map[], map[], [], 0, Traffic(map[], map[]), map[], [], []);
    before := AssignedTwice(s);
    var t := Run(s, before);
    var dropped := DroppedThenRestored(t);
    var u := Run(t, dropped);
    var answered := AskedThenAnswered(u);
    after := dropped + answered;
    RunsChain(t, dropped, answered);
  }

  lemma AssignedTwice(s: State) returns (steps: seq<Step>)
    requires s.roles == map[1 := Role({}, 0, false, true, false)] && s.connections == map[]
    ensures Valid(s, steps)
    ensures var t := Run(s, steps);
            && t == s.(roles := t.roles, connections := t.connections, history := t.history)
            && t.roles == map[1 := Role({}, 2, true, false, false)]
            && t.connections == map[1 := NewConnection(External, 2, Some(8), 1_000)]
  {
    var a, b := ConfigureStep(1, External, 1_000, 7), ConfigureStep(1, External, 1_000, 8);
    steps := [a, b];
    assert Apply(s, a).connections == map[1 := NewConnection(External, 1, Some(7), 1_000)];
    assert Apply(s, a).roles == map[1 := Role({}, 1, true, false, false)];
    assert Apply(Apply(s, a), b).roles == map[1 := Role({}, 2, true, false, false)];
    TwoSteps(s, a, b);
  }

  lemma DroppedThenRestored(s: State) returns (steps: seq<Step>)
    requires s.roles == map[1 := Role({}, 2, true, false, false)]
    requires s.connections == map[1 := NewConnection(External, 2, Some(8), 1_000)]
    ensures Valid(s, steps)
    ensures var t := Run(s, steps);
            && t == s.(roles := t.roles, connections := t.connections, history := t.history)
            && t.roles == map[1 := Role({}, 1, true, false, false)]
            && t.connections == map[1 := NewConnection(External, 1, Some(9), 1_000)]
  {
    var released := ConfigureStep(1, Human, 1_000, 7);
    var t := Apply(s, released);
    assert t.roles == map[1 := Role({}, 3, false, true, false)];
    assert t.connections == map[1 := NewConnection(Human, 3, None, 1_000)];
    var rest := RestartedLeases(t);
    steps := [released] + rest;
    OneStep(s, released);
    RunsChain(s, [released], rest);
  }

  lemma RestartedLeases(s: State) returns (steps: seq<Step>)
    requires s.roles == map[1 := Role({}, 3, false, true, false)]
    requires s.connections == map[1 := NewConnection(Human, 3, None, 1_000)]
    ensures Valid(s, steps)
    ensures var t := Run(s, steps);
            && t == s.(roles := t.roles, connections := t.connections, history := t.history)
            && t.roles == map[1 := Role({}, 1, true, false, false)]
            && t.connections == map[1 := NewConnection(External, 1, Some(9), 1_000)]
  {
    var c, d, e := EditStep(map[]), EditStep(map[1 := RoleDefinition({}, false, true)]), ConfigureStep(1, External, 1_000, 9);
    steps := [c, d, e];
    RoleIsDropped(s);
    RoleIsRestored(Apply(s, c));
    RoleIsAssigned(Apply(Apply(s, c), d));
    ThreeSteps(s, c, d, e);
  }

  lemma RoleIsDropped(s: State)
    requires s.roles == map[1 := Role({}, 3, false, true, false)]
    requires s.connections == map[1 := NewConnection(Human, 3, None, 1_000)]
    ensures Enabled(s, EditStep(map[])) && Apply(s, EditStep(map[])) == s.(roles := map[])
  {
    var t := Apply(s, EditStep(map[]));
    assert t.roles == map[];
    assert t.connections == map[1 := Invalidated(s.connections[1])] == s.connections;
  }

  lemma RoleIsRestored(s: State)
    requires s.roles == map[] && s.connections == map[1 := NewConnection(Human, 3, None, 1_000)]
    ensures var d := EditStep(map[1 := RoleDefinition({}, false, true)]);
            Enabled(s, d) && Apply(s, d) == s.(roles := map[1 := Role({}, 0, false, true, false)])
  {
    var t := Apply(s, EditStep(map[1 := RoleDefinition({}, false, true)]));
    assert t.roles == map[1 := Role({}, 0, false, true, false)];
    assert t.connections[1] == s.connections[1];
    assert t.connections == s.connections;
  }

  lemma RoleIsAssigned(s: State)
    requires s.roles == map[1 := Role({}, 0, false, true, false)]
    requires s.connections == map[1 := NewConnection(Human, 3, None, 1_000)]
    ensures var e := ConfigureStep(1, External, 1_000, 9);
            && Enabled(s, e)
            && (var t := Apply(s, e);
                && t == s.(roles := t.roles, connections := t.connections, history := t.history)
                && t.roles == map[1 := Role({}, 1, true, false, false)]
                && t.connections == map[1 := NewConnection(External, 1, Some(9), 1_000)])
  {
    var t := Apply(s, ConfigureStep(1, External, 1_000, 9));
    assert t.roles == map[1 := Role({}, 1, true, false, false)];
    assert t.connections == map[1 := NewConnection(External, 1, Some(9), 1_000)];
  }

  lemma AskedThenAnswered(s: State) returns (steps: seq<Step>)
    requires s.status == Running && !s.complete && s.nextId == 0 && s.decisions == map[] && s.applied == []
    requires 1 in s.roles && s.connections == map[1 := NewConnection(External, 1, Some(9), 1_000)]
    ensures Valid(s, steps)
    ensures var t := Run(s, steps); |t.applied| == 1 && t.applied[0].role == 1 && t.applied[0].generation == 1
  {
    var d := Decision(5, PROTOCOL_VERSION, 0, 1, [], 0, None);
    var a, b := AdvanceStep(0, map[]), DecideStep(9, d, 0, []);
    steps := [a, b];
    var t := Apply(s, a);
    OneIsAsked(s, 9);
    OneAnswers(t, d);
    TwoSteps(s, a, b);
  }

  lemma OneIsAsked(s: State, token: nat)
    requires s.status == Running && !s.complete && s.connections == map[1 := NewConnection(External, 1, Some(token), 1_000)]
    ensures var t := Apply(s, AdvanceStep(0, map[]));
            && t.status == Running && !t.complete && t.roles == s.roles && t.decisions == s.decisions && t.applied == s.applied
            && t.tick == s.tick && t.traffic == s.traffic && t.placed == s.placed
            && t.connections.Keys == {1} && t.connections[1].mode == External && t.connections[1].token == Some(token)
            && t.connections[1].generation == 1
            && t.connections[1].work == Some(Observation(s.nextId, 1, 1_000, {}, {}))
  {
    assert Externals(s) == {1};
    OnlyOne(1);
    assert ExternalRoles(s) == [1] && [1][1..] == [];
    assert Issue(s, 1, 0, map[]).connections[1].work.value.requests == {};
    assert AdvanceRoles(AdvanceRole(s, 1, 0, map[]), [], 0, map[]) == AdvanceRole(s, 1, 0, map[]);
  }

  lemma OnlyOne(role: nat)
    ensures SortedKeys({role}) == [role]
  {
    assert {role} - {role} == {};
    assert SortedKeys({role}) == [Least({role})] + SortedKeys({});
  }

  lemma OneAnswers(s: State, d: Decision)
    requires s.status == Running && !s.complete && 1 in s.roles && s.decisions == map[] && s.applied == []
    requires s.connections.Keys == {1} && s.connections[1].mode == External && s.connections[1].token == Some(9)
    requires s.connections[1].generation == 1 && s.connections[1].work.Some?
    requires s.connections[1].work.value.id == d.observation && s.connections[1].work.value.deadlineMs > 0
    requires d.protocol == PROTOCOL_VERSION && d.generation == 1 && d.actions == [] && !TooLarge(d)
    ensures Enabled(s, DecideStep(9, d, 0, []))
    ensures var t := Decide(s, 9, d, 0, []).0; |t.applied| == 1 && t.applied[0].role == 1 && t.applied[0].generation == 1
  {
    assert Holders(s, 9) == {1};
    assert Authenticate(s, 9) == Some(1);
    assert DecideAll(s, 1, s.connections[1].work.value, d, 0, []) == (s, []);
  }

  lemma {:induction false} RunsChain(s: State, a: seq<Step>, b: seq<Step>)
    requires Valid(s, a) && Valid(Run(s, a), b)
    ensures Valid(s, a + b) && Run(s, a + b) == Run(Run(s, a), b)
    decreases |a|
  {
    if a == [] {
      assert a + b == b;
    } else {
      assert (a + b)[0] == a[0] && (a + b)[1..] == a[1..] + b;
      RunsChain(Apply(s, a[0]), a[1..], b);
    }
  }

  lemma OneStep(s: State, a: Step)
    requires Enabled(s, a)
    ensures Valid(s, [a]) && Run(s, [a]) == Apply(s, a)
  {
    assert [a][1..] == [] && Valid(Apply(s, a), []);
  }

  lemma TwoSteps(s: State, a: Step, b: Step)
    requires Enabled(s, a) && Enabled(Apply(s, a), b)
    ensures Valid(s, [a, b]) && Run(s, [a, b]) == Apply(Apply(s, a), b)
  {
    assert [a, b][1..] == [b] && [b][1..] == [];
    assert Valid(Apply(Apply(s, a), b), []) && Valid(Apply(s, a), [b]);
    assert Run(Apply(s, a), [b]) == Apply(Apply(s, a), b);
  }

  lemma ThreeSteps(s: State, a: Step, b: Step, c: Step)
    requires Enabled(s, a) && Enabled(Apply(s, a), b) && Enabled(Apply(Apply(s, a), b), c)
    ensures Valid(s, [a, b, c]) && Run(s, [a, b, c]) == Apply(Apply(Apply(s, a), b), c)
  {
    TwoSteps(Apply(s, a), b, c);
    assert [a, b, c][1..] == [b, c];
  }

  // ---- Deadlines and fallback -------------------------------------------------------------

  /** One role after its turn in advance: asked with time left, or asked less than five ticks ago. */
  ghost predicate Attended(c: Connection, now: nat, tick: nat) {
    && (c.work.Some? ==> (c.work.value.deadlineMs > now <==> now < U64_MAX))
    && (c.work.None? ==> c.lastWorkTick.Some? && SaturatingSub(tick, c.lastWorkTick.value) < WORK_INTERVAL_TICKS)
  }

  ghost predicate FallbackSet(before: Connection, after: Connection, now: nat) {
    after.fallback == (before.fallback || (before.work.Some? && before.work.value.deadlineMs <= now))
  }

  lemma AdvanceRoleAttends(s: State, role: nat, now: nat, views: map<nat, View>)
    requires role in s.connections && ConnectionOk(s, role) && now <= U64_MAX
    ensures Attended(AdvanceRole(s, role, now, views).connections[role], now, s.tick)
    ensures FallbackSet(s.connections[role], AdvanceRole(s, role, now, views).connections[role], now)
  {}

  lemma {:induction false} AdvanceRolesFrame(s: State, roles: seq<nat>, now: nat, views: map<nat, View>)
    requires forall r :: r in roles ==> r in s.connections
    ensures var t := AdvanceRoles(s, roles, now, views);
            && t.connections.Keys == s.connections.Keys && t.tick == s.tick
            && (forall r :: r in s.connections && r !in roles ==> t.connections[r] == s.connections[r])
    decreases |roles|
  {
    if roles != [] {
      AdvanceRolesFrame(AdvanceRole(s, roles[0], now, views), roles[1..], now, views);
      assert roles == [roles[0]] + roles[1..];
    }
  }

  lemma AscendingTail(roles: seq<nat>)
    requires Ascending(roles) && roles != []
    ensures Ascending(roles[1..]) && roles[0] !in roles[1..]
    ensures forall r :: r in roles <==> r == roles[0] || r in roles[1..]
  {
    assert roles == [roles[0]] + roles[1..];
  }

  lemma OthersWait(s: State, first: nat, now: nat, views: map<nat, View>, role: nat)
    requires first in s.connections && role in s.connections && role != first && ConnectionOk(s, role)
    ensures var t := AdvanceRole(s, first, now, views);
            t.connections.Keys == s.connections.Keys && t.tick == s.tick
            && t.connections[role] == s.connections[role] && ConnectionOk(t, role)
  {
    OtherConnectionOk(s, AdvanceRole(s, first, now, views), role);
  }

  lemma {:induction false} AdvanceRolesAttend(s: State, roles: seq<nat>, now: nat, views: map<nat, View>, role: nat)
    requires Ascending(roles) && now <= U64_MAX && role in roles && (forall r :: r in roles ==> r in s.connections)
    requires ConnectionOk(s, role)
    ensures var t := AdvanceRoles(s, roles, now, views);
            role in t.connections && Attended(t.connections[role], now, s.tick)
            && FallbackSet(s.connections[role], t.connections[role], now)
    decreases |roles|
  {
    AscendingTail(roles);
    if role == roles[0] {
      AdvanceRoleAttends(s, role, now, views);
      AdvanceRolesFrame(AdvanceRole(s, role, now, views), roles[1..], now, views);
    } else {
      OthersWait(s, roles[0], now, views, role);
      AdvanceRolesAttend(AdvanceRole(s, roles[0], now, views), roles[1..], now, views, role);
    }
  }

  /** After advance on a running game: whatever is open is under its role's current generation and
      has a deadline after now (unless now is the last representable millisecond, when deadlines
      saturate); an external role with nothing open was asked less than five ticks ago; and a role is
      on fallback exactly if it was before or its work was overdue. */
  lemma AdvanceAttends(s: State, now: nat, views: map<nat, View>)
    requires Inv(s) && s.status == Running && !s.complete && now <= U64_MAX
    ensures var t := Advance(s, now, views);
            && t.connections.Keys == s.connections.Keys
            && (forall r :: r in t.connections && t.connections[r].work.Some? ==>
                  t.connections[r].work.value.generation == t.connections[r].generation
                  && (t.connections[r].work.value.deadlineMs > now <==> now < U64_MAX))
            && (forall r :: r in s.connections && s.connections[r].mode == External ==>
                  Attended(t.connections[r], now, t.tick)
                  && FallbackSet(s.connections[r], t.connections[r], now))
  {
    var t := Advance(s, now, views);
    AdvanceRolesFrame(s, ExternalRoles(s), now, views);
    forall r | r in s.connections && s.connections[r].mode == External
      ensures Attended(t.connections[r], now, t.tick) && FallbackSet(s.connections[r], t.connections[r], now)
    {
      assert ConnectionOk(s, r);
      AdvanceRolesAttend(s, ExternalRoles(s), now, views, r);
    }
    AdvanceRolesKeepsInv(s, ExternalRoles(s), now, views);
    forall r | r in t.connections && t.connections[r].work.Some? ensures r in ExternalRoles(s)
      ensures t.connections[r].work.value.generation == t.connections[r].generation
    {
      assert ConnectionOk(s, r) && ConnectionOk(t, r);
    }
  }

  /** The role is configured afresh, or a decision of its controller is carried out. */
  ghost predicate Releases(s: State, step: Step, role: nat)
    requires Enabled(s, step)
  {
    || (step.ConfigureStep? && step.role == role)
    || (step.DecideStep? && |Apply(s, step).applied| > |s.applied| && Apply(s, step).applied[|s.applied|].role == role)
  }

  ghost predicate EverReleases(s: State, steps: seq<Step>, role: nat)
    requires Valid(s, steps)
    decreases |steps|
  {
    steps != [] && (Releases(s, steps[0], role) || EverReleases(Apply(s, steps[0]), steps[1..], role))
  }

  lemma {:induction false} AdvanceRolesKeepFallback(s: State, roles: seq<nat>, now: nat, views: map<nat, View>, role: nat)
    requires (forall r :: r in roles ==> r in s.connections) && role in s.connections && s.connections[role].fallback
    ensures var t := AdvanceRoles(s, roles, now, views); role in t.connections && t.connections[role].fallback
    decreases |roles|
  {
    if roles != [] {
      AdvanceRolesKeepFallback(AdvanceRole(s, roles[0], now, views), roles[1..], now, views, role);
    }
  }

  lemma DecideKeepsFallback(s: State, token: nat, d: Decision, now: nat, answers: seq<Answer>, role: nat)
    requires Inv(s) && Enabled(s, DecideStep(token, d, now, answers)) && role in s.connections && s.connections[role].fallback
    requires !Releases(s, DecideStep(token, d, now, answers), role)
    ensures var t := Decide(s, token, d, now, answers).0; role in t.connections && t.connections[role].fallback
  {
    DecideExactly(s, token, d, now, answers);
    var held := Authenticate(s, token);
    if held.Some? && Acceptable(s, held.value, d, now) {
      DecidedShape(s, held.value, d, now, answers);
    }
  }

  /** Neither a pause nor an authority edit nor a lease ends fallback. */
  lemma QuietKeepsFallback(s: State, step: Step, role: nat)
    requires Enabled(s, step) && role in s.connections && s.connections[role].fallback
    requires !step.AdvanceStep? && !step.DecideStep? && !step.PlannerStep? && !(step.ConfigureStep? && step.role == role)
    ensures role in Apply(s, step).connections && Apply(s, step).connections[role].fallback
  {
  }

  lemma StepKeepsFallback(s: State, step: Step, role: nat)
    requires Inv(s) && Enabled(s, step) && role in s.connections && s.connections[role].fallback
    requires !Releases(s, step, role)
    ensures role in Apply(s, step).connections && Apply(s, step).connections[role].fallback
  {
    if step.AdvanceStep? {
      AdvanceRolesKeepFallback(s, ExternalRoles(s), step.now, step.views, role);
    } else if step.DecideStep? {
      DecideKeepsFallback(s, step.token, step.decision, step.now, step.answers, role);
    } else if step.PlannerStep? {
      assert PlannerKeeps(s.connections[role], step.planned.connections[role]);
    } else {
      QuietKeepsFallback(s, step, role);
    }
  }

  /** Fallback lasts through any run until the role is configured or one of its decisions is carried
      out; pauses, timeouts, authority edits and the planner never end it. */
  lemma {:induction false} FallbackLasts(s: State, steps: seq<Step>, role: nat)
    requires Inv(s) && Valid(s, steps) && role in s.connections && s.connections[role].fallback
    requires !EverReleases(s, steps, role)
    ensures role in Run(s, steps).connections && Run(s, steps).connections[role].fallback
    decreases |steps|
  {
    if steps != [] {
      ApplyKeepsInv(s, steps[0]);
      StepKeepsFallback(s, steps[0], role);
      FallbackLasts(Apply(s, steps[0]), steps[1..], role);
    }
  }
}
