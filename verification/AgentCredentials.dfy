/** Whose decision a decision is: a credential speaks for the one role it was made for. */
module AgentCredentials {
  import opened Ordered
  import opened OrderTraffic
  import opened Agents
  import opened AgentSafety

  /** The role was given to an external controller under this credential. */
  predicate Speaks(s: State, role: nat, token: nat) {
    role in s.connections && s.connections[role].mode == External && s.connections[role].token == Some(token)
  }

  /** Just external connections hold a credential, and no two the same. */
  ghost predicate Distinct(s: State) {
    && (forall r :: r in s.connections ==> (s.connections[r].token.Some? <==> s.connections[r].mode == External))
    && (forall q, r :: q in s.connections && r in s.connections && s.connections[q].token.Some? ==>
          (s.connections[q].token == s.connections[r].token ==> q == r))
  }

  /** Every connection there is keeps its mode and its credential. */
  ghost predicate SameCredentials(s: State, t: State) {
    && t.connections.Keys == s.connections.Keys
    && forall r :: r in s.connections ==>
         t.connections[r].mode == s.connections[r].mode && t.connections[r].token == s.connections[r].token
  }

  lemma SameStayDistinct(s: State, t: State)
    requires Distinct(s) && SameCredentials(s, t)
    ensures Distinct(t)
  {
  }

  lemma {:induction false} AdvanceRolesSame(s: State, roles: seq<nat>, now: nat, views: map<nat, View>)
    requires forall r :: r in roles ==> r in s.connections
    ensures SameCredentials(s, AdvanceRoles(s, roles, now, views))
    decreases |roles|
  {
    if roles != [] {
      var t := AdvanceRole(s, roles[0], now, views);
      assert SameCredentials(s, t);
      AdvanceRolesSame(t, roles[1..], now, views);
    }
  }

  lemma AdvanceKeepsDistinct(s: State, now: nat, views: map<nat, View>)
    requires Distinct(s)
    ensures Distinct(Advance(s, now, views))
  {
    if s.status == Running && !s.complete {
      AdvanceRolesSame(s, ExternalRoles(s), now, views);
      SameStayDistinct(s, Advance(s, now, views));
    } else {
      SameStayDistinct(s, InvalidateWork(s));
    }
  }

  lemma DecidedSame(s: State, role: nat, d: Decision, now: nat, answers: seq<Answer>)
    requires Acceptable(s, role, d, now)
    ensures SameCredentials(s, Decided(s, role, d, now, answers))
  {
    DecidedShape(s, role, d, now, answers);
  }

  lemma DecideKeepsDistinct(s: State, token: nat, d: Decision, now: nat, answers: seq<Answer>)
    requires Inv(s) && Enabled(s, DecideStep(token, d, now, answers)) && Distinct(s)
    ensures Distinct(Decide(s, token, d, now, answers).0)
  {
    DecideExactly(s, token, d, now, answers);
    var held := Authenticate(s, token);
    if held.Some? && Acceptable(s, held.value, d, now) {
      DecidedSame(s, held.value, d, now, answers);
      SameStayDistinct(s, Decided(s, held.value, d, now, answers));
    }
  }

  lemma PlannedDistinct(s: State, t: State)
    requires Distinct(s) && PlannerFrame(s, t)
    ensures Distinct(t)
  {
    forall r | r in t.connections
      ensures r in s.connections ==> t.connections[r].mode == s.connections[r].mode && t.connections[r].token == s.connections[r].token
      ensures r !in s.connections ==> t.connections[r].mode == Deterministic && t.connections[r].token == None
    {
      if r in s.connections {
        assert PlannerKeeps(s.connections[r], t.connections[r]);
      } else {
        assert PlannerKeeps(NewConnection(Deterministic, s.roles[r].generation, None, 30_000), t.connections[r]);
      }
    }
  }

  lemma ConfiguredDistinct(s: State, role: nat, mode: Mode, timeoutMs: nat, token: nat)
    requires Distinct(s) && forall r :: r in s.connections ==> s.connections[r].token != Some(token)
    ensures Distinct(Configure(s, role, mode, timeoutMs, token).0)
  {
  }

  lemma StepKeepsDistinct(s: State, step: Step)
    requires Inv(s) && Enabled(s, step) && Distinct(s)
    ensures Distinct(Apply(s, step))
  {
    if step.ConfigureStep? {
      ConfiguredDistinct(s, step.role, step.mode, step.timeoutMs, step.token);
    } else if step.AdvanceStep? {
      AdvanceKeepsDistinct(s, step.now, step.views);
    } else if step.DecideStep? {
      DecideKeepsDistinct(s, step.token, step.decision, step.now, step.answers);
    } else if step.PlannerStep? {
      PlannedDistinct(s, step.planned);
    } else {
      QuietKeepsDistinct(s, step);
    }
  }

  lemma EditSame(s: State, definitions: map<nat, RoleDefinition>)
    ensures SameCredentials(s, EditAuthority(s, definitions))
  {
  }

  lemma QuietSame(s: State, step: Step)
    requires Enabled(s, step)
    requires !step.ConfigureStep? && !step.AdvanceStep? && !step.DecideStep? && !step.PlannerStep?
    ensures SameCredentials(s, Apply(s, step))
  {
    if step.EditStep? {
      EditSame(s, step.definitions);
    } else {
      assert step.SetStatus? || Apply(s, step).connections == s.connections;
    }
  }

  lemma QuietKeepsDistinct(s: State, step: Step)
    requires Enabled(s, step) && Distinct(s)
    requires !step.ConfigureStep? && !step.AdvanceStep? && !step.DecideStep? && !step.PlannerStep?
    ensures Distinct(Apply(s, step))
  {
    QuietSame(s, step);
    SameStayDistinct(s, Apply(s, step));
  }

  /** An assignment to an external controller makes its credential speak for that role, and any other
      assignment leaves the role without one; the credential the role had before is void. */
  lemma ConfigureGivesCredential(s: State, role: nat, mode: Mode, timeoutMs: nat, token: nat, other: nat)
    requires Enabled(s, ConfigureStep(role, mode, timeoutMs, token)) && Configure(s, role, mode, timeoutMs, token).1.None?
    ensures var t := Configure(s, role, mode, timeoutMs, token).0;
            && (Speaks(t, role, other) <==> mode == External && other == token)
            && (forall r :: r != role ==> Speaks(t, r, other) == Speaks(s, r, other))
  {
  }

  lemma {:induction false} RunKeepsDistinct(s: State, steps: seq<Step>)
    requires Inv(s) && Valid(s, steps) && Distinct(s)
    ensures Inv(Run(s, steps)) && Distinct(Run(s, steps))
    decreases |steps|
  {
    if steps != [] {
      ApplyKeepsInv(s, steps[0]);
      StepKeepsDistinct(s, steps[0]);
      RunKeepsDistinct(Apply(s, steps[0]), steps[1..]);
    }
  }

  /** In every run from a fresh game no two roles share a credential: it speaks for one role at most. */
  lemma CredentialsAreDistinct(s: State, steps: seq<Step>, token: nat, q: nat, r: nat)
    requires Fresh(s) && Valid(s, steps)
    requires Speaks(Run(s, steps), q, token) && Speaks(Run(s, steps), r, token)
    ensures q == r
  {
    FreshInv(s);
    RunKeepsDistinct(s, steps);
  }

  lemma AuthenticatesSpeaker(s: State, token: nat, role: nat)
    requires Distinct(s) && Speaks(s, role, token)
    ensures Authenticate(s, token) == Some(role)
  {
    assert role in Holders(s, token);
  }

  lemma AuthenticatesNobody(s: State, token: nat)
    requires forall r :: !Speaks(s, r, token)
    ensures Authenticate(s, token) == None
  {
    forall r ensures r !in Holders(s, token) {
      assert !Speaks(s, r, token);
    }
  }

  /** In any state a run reaches: a credential that speaks for no role is unauthorized, whatever the decision
      says, and changes nothing. One that speaks for a role gets that role's decision carried out exactly if
      its protocol and generation are current, its identifier is new, the role's open observation is the one
      it answers with time left in a running game, and it is within the size limits; it is then logged for
      that role. Everything else changes nothing: the stored result for an identical replay, a refusal
      otherwise. */
  lemma DecidesForItsRole(s: State, steps: seq<Step>, token: nat, d: Decision, now: nat, answers: seq<Answer>)
    requires Fresh(s) && Valid(s, steps)
    requires Enabled(Run(s, steps), DecideStep(token, d, now, answers))
    ensures var t := Run(s, steps); var (u, response) := Decide(t, token, d, now, answers);
            && ((forall r :: !Speaks(t, r, token)) ==> u == t && response == Failed(Unauthorized))
            && (forall r :: Speaks(t, r, token) ==> DecidedFor(t, u, response, r, d, now))
  {
    FreshInv(s);
    RunKeepsDistinct(s, steps);
    DecidesForItsRoleNow(Run(s, steps), token, d, now, answers);
  }

  /** What a decision under role r's credential does, and what it is told. */
  ghost predicate DecidedFor(t: State, u: State, response: Response, r: nat, d: Decision, now: nat)
    requires r in t.connections
  {
    var c := t.connections[r];
    var current := d.protocol == PROTOCOL_VERSION && d.generation == c.generation;
    var open := t.status == Running && !t.complete && c.work.Some? && c.work.value.id == d.observation && c.work.value.deadlineMs > now;
    var fits := |d.actions| <= MAX_ACTIONS && d.explanation <= MAX_EXPLANATION && (d.model.None? || d.model.value <= MAX_MODEL);
    if current && d.id !in t.decisions && open && fits then
      && |u.applied| == |t.applied| + 1 && u.applied[..|t.applied|] == t.applied
      && u.applied[|t.applied|].decision == d.id && u.applied[|t.applied|].role == r
      && u.applied[|t.applied|].observation == d.observation
      && d.id in u.decisions && u.decisions[d.id].role == r && u.decisions[d.id].decision == d
      && response == Replied(u.decisions[d.id].result)
    else
      && u == t
      && response == (
           if !current then Failed(StaleGeneration)
           else if d.id in t.decisions then
             if t.decisions[d.id].role == r && t.decisions[d.id].decision == d then Replied(t.decisions[d.id].result)
             else Failed(DecisionConflict)
           else if !open then Failed(DecisionClosed)
           else Failed(DecisionSize))
  }

  lemma DecidesForItsRoleNow(t: State, token: nat, d: Decision, now: nat, answers: seq<Answer>)
    requires Inv(t) && Distinct(t) && Enabled(t, DecideStep(token, d, now, answers))
    ensures var (u, response) := Decide(t, token, d, now, answers);
            && ((forall r :: !Speaks(t, r, token)) ==> u == t && response == Failed(Unauthorized))
            && (forall r :: Speaks(t, r, token) ==> DecidedFor(t, u, response, r, d, now))
  {
    var (u, response) := Decide(t, token, d, now, answers);
    if forall r :: !Speaks(t, r, token) {
      AuthenticatesNobody(t, token);
    }
    forall r | Speaks(t, r, token) ensures DecidedFor(t, u, response, r, d, now) {
      AuthenticatesSpeaker(t, token, r);
      SpeakerDecides(t, token, d, now, answers, r);
    }
  }

  lemma SpeakerDecides(t: State, token: nat, d: Decision, now: nat, answers: seq<Answer>, r: nat)
    requires Inv(t) && Enabled(t, DecideStep(token, d, now, answers)) && r in t.connections && r in t.roles
    requires Authenticate(t, token) == Some(r)
    ensures DecidedFor(t, Decide(t, token, d, now, answers).0, Decide(t, token, d, now, answers).1, r, d, now)
  {
    DecideExactly(t, token, d, now, answers);
    if Acceptable(t, r, d, now) {
      DecidedShape(t, r, d, now, answers);
    }
  }
}
