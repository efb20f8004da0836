/** Goal assignments under external control: what a decision leaves of them, and that they stay in scope. */
module AgentGoals {
  import opened Ordered
  import opened OrderTraffic
  import opened Agents
  import opened AgentSafety

  lemma {:induction false} GoalIsSet(assignments: map<nat, nat>, units: seq<nat>, goal: nat, unit: nat)
    ensures var after := WithGoal(assignments, units, goal);
            && (unit in units ==> unit in after && after[unit] == goal)
            && (unit !in units ==> (unit in after <==> unit in assignments) && (unit in after ==> after[unit] == assignments[unit]))
    decreases |units|
  {
    if units != [] {
      GoalIsSet(assignments[units[0] := goal], units[1..], goal, unit);
      assert unit in units <==> unit == units[0] || unit in units[1..];
    }
  }

  /** The accepted action concerns the unit: it orders it, or selects its goal. */
  ghost predicate Concerns(a: Action, outcome: Outcome, unit: nat) {
    outcome.Accepted? && (match a
                          case Order(ordered, _) => ordered == unit
                          case SelectGoal(_, units) => unit in units
                          case AuthorityDecision(_, _) => false)
  }

  ghost function GoalOf(s: State, role: nat, unit: nat): Option<nat>
    requires role in s.connections
  {
    var assignments := s.connections[role].assignments;
    if unit in assignments then Some(assignments[unit]) else None
  }

  /** What an action leaves as the unit's goal. */
  ghost function GoalAfter(a: Action): Option<nat> {
    if a.SelectGoal? then Some(a.goal) else None
  }

  lemma DecideOneAssigns(s: State, role: nat, o: Observation, a: Action, namespace: nat, index: nat, answer: Answer, unit: nat)
    requires role in s.connections && role in s.roles
    ensures var (t, outcome) := DecideOne(s, role, o, a, namespace, index, answer);
            role in t.connections && GoalOf(t, role, unit) == if Concerns(a, outcome, unit) then GoalAfter(a) else GoalOf(s, role, unit)
  {
    if a.SelectGoal? {
      GoalIsSet(s.connections[role].assignments, a.units, a.goal, unit);
    }
  }

  lemma {:induction false} UnconcernedKeepsGoal(
    s: State, role: nat, o: Observation, d: Decision, index: nat, answers: seq<Answer>, unit: nat)
    requires role in s.connections && role in s.roles && index <= |d.actions|
    requires var results := DecideAll(s, role, o, d, index, answers).1;
             forall j :: index <= j < |d.actions| ==> !Concerns(d.actions[j], results[j - index], unit)
    ensures GoalOf(DecideAll(s, role, o, d, index, answers).0, role, unit) == GoalOf(s, role, unit)
    decreases |d.actions| - index
  {
    if index < |d.actions| {
      var (t, outcome) := DecideOne(s, role, o, d.actions[index], d.id, index, AnswerAt(answers, index));
      var rest := DecideAll(t, role, o, d, index + 1, answers).1;
      var results := DecideAll(s, role, o, d, index, answers).1;
      assert results[0] == outcome && results[1..] == rest;
      forall j | index + 1 <= j < |d.actions| ensures !Concerns(d.actions[j], rest[j - index - 1], unit) {
        assert rest[j - index - 1] == results[j - index];
      }
      DecideOneAssigns(s, role, o, d.actions[index], d.id, index, AnswerAt(answers, index), unit);
      UnconcernedKeepsGoal(t, role, o, d, index + 1, answers, unit);
    }
  }

  /** The last accepted action that concerns a unit settles its goal: an order ends it, a selection sets it. */
  lemma {:induction false} LastActionSettlesGoal(
    s: State, role: nat, o: Observation, d: Decision, index: nat, answers: seq<Answer>, unit: nat, k: nat)
    requires role in s.connections && role in s.roles && index <= k < |d.actions|
    requires var results := DecideAll(s, role, o, d, index, answers).1;
             && Concerns(d.actions[k], results[k - index], unit)
             && (forall j :: k < j < |d.actions| ==> !Concerns(d.actions[j], results[j - index], unit))
    ensures GoalOf(DecideAll(s, role, o, d, index, answers).0, role, unit) == GoalAfter(d.actions[k])
    decreases |d.actions| - index
  {
    var (t, outcome) := DecideOne(s, role, o, d.actions[index], d.id, index, AnswerAt(answers, index));
    var rest := DecideAll(t, role, o, d, index + 1, answers).1;
    var results := DecideAll(s, role, o, d, index, answers).1;
    assert results[0] == outcome && results[1..] == rest;
    forall j | k < j < |d.actions| ensures !Concerns(d.actions[j], rest[j - index - 1], unit) {
      assert rest[j - index - 1] == results[j - index];
    }
    if index == k {
      DecideOneAssigns(s, role, o, d.actions[index], d.id, index, AnswerAt(answers, index), unit);
      UnconcernedKeepsGoal(t, role, o, d, index + 1, answers, unit);
    } else {
      assert rest[k - index - 1] == results[k - index];
      LastActionSettlesGoal(t, role, o, d, index + 1, answers, unit, k);
    }
  }

  lemma ActKeepsScope(s: State, role: nat, a: Action, namespace: nat, index: nat, external: bool, answer: Answer)
    requires role in s.connections && role in s.roles && AssignmentsInScope(s)
    ensures AssignmentsInScope(Act(s, role, a, namespace, index, external, answer).0)
  {
    if a.SelectGoal? {
      forall unit | unit in WithGoal(s.connections[role].assignments, a.units, a.goal) && unit !in a.units
        ensures unit in s.connections[role].assignments
      {
        GoalIsSet(s.connections[role].assignments, a.units, a.goal, unit);
      }
    }
  }

  lemma {:induction false} DecideAllKeepsScope(s: State, role: nat, o: Observation, d: Decision, index: nat, answers: seq<Answer>)
    requires role in s.connections && role in s.roles && index <= |d.actions| && AssignmentsInScope(s)
    ensures AssignmentsInScope(DecideAll(s, role, o, d, index, answers).0)
    decreases |d.actions| - index
  {
    if index < |d.actions| {
      var a, answer := d.actions[index], AnswerAt(answers, index);
      var t := DecideOne(s, role, o, a, d.id, index, answer).0;
      ActKeepsScope(s, role, a, d.id, index, true, answer);
      DecideAllKeepsScope(t, role, o, d, index + 1, answers);
    }
  }

  lemma DecideKeepsScope(s: State, token: nat, d: Decision, now: nat, answers: seq<Answer>)
    requires Inv(s) && AssignmentsInScope(s)
    requires forall r :: r in s.connections && s.connections[r].mode == External ==> r in s.roles
    ensures AssignmentsInScope(Decide(s, token, d, now, answers).0)
  {
    DecideExactly(s, token, d, now, answers);
    var held := Authenticate(s, token);
    if held.Some? && Acceptable(s, held.value, d, now) {
      DecideAllFrame(s, held.value, s.connections[held.value].work.value, d, 0, answers);
      DecideAllKeepsScope(s, held.value, s.connections[held.value].work.value, d, 0, answers);
    }
  }

  lemma {:induction false} AdvanceRolesKeepScope(s: State, roles: seq<nat>, now: nat, views: map<nat, View>)
    requires (forall r :: r in roles ==> r in s.connections) && AssignmentsInScope(s)
    ensures AssignmentsInScope(AdvanceRoles(s, roles, now, views))
    decreases |roles|
  {
    if roles != [] {
      AdvanceRolesKeepScope(AdvanceRole(s, roles[0], now, views), roles[1..], now, views);
    }
  }

  lemma StepKeepsScope(s: State, step: Step)
    requires Inv(s) && Enabled(s, step) && AssignmentsInScope(s)
    ensures AssignmentsInScope(Apply(s, step))
  {
    match step
    case AdvanceStep(now, views) =>
      if s.status == Running && !s.complete {
        AdvanceRolesKeepScope(s, ExternalRoles(s), now, views);
      }
    case DecideStep(token, d, now, answers) => DecideKeepsScope(s, token, d, now, answers);
    case _ =>
  }

  /** In every run a role's goal assignments name only units it commands, whatever authority edits take away. */
  lemma {:induction false} AssignmentsStayInScope(s: State, steps: seq<Step>)
    requires Inv(s) && AssignmentsInScope(s) && Valid(s, steps)
    ensures AssignmentsInScope(Run(s, steps))
    decreases |steps|
  {
    if steps != [] {
      ApplyKeepsInv(s, steps[0]);
      StepKeepsScope(s, steps[0]);
      AssignmentsStayInScope(Apply(s, steps[0]), steps[1..]);
    }
  }
}
