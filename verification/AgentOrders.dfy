/** How the actions of one decision affect each other: through the orders and requests on their way, through
    a stopped game, and through nothing else. */
module AgentOrders {
  import opened Ordered
  import opened OrderTraffic
  import opened Agents
  import opened AgentSafety

  /** The game as action k of the decision finds it. */
  ghost function Before(s: State, role: nat, o: Observation, d: Decision, answers: seq<Answer>, index: nat, k: nat): (t: State)
    requires role in s.connections && role in s.roles && index <= k <= |d.actions|
    ensures t.connections.Keys == s.connections.Keys && t.roles == s.roles
    decreases k - index
  {
    if k == index then s
    else Before(DecideOne(s, role, o, d.actions[index], d.id, index, AnswerAt(answers, index)).0, role, o, d, answers, index + 1, k)
  }

  lemma {:induction false} OutcomeAt(s: State, role: nat, o: Observation, d: Decision, answers: seq<Answer>, index: nat, k: nat)
    requires role in s.connections && role in s.roles && index <= k < |d.actions|
    ensures DecideAll(s, role, o, d, index, answers).1[k - index]
         == DecideOne(Before(s, role, o, d, answers, index, k), role, o, d.actions[k], d.id, k, AnswerAt(answers, k)).1
    decreases k - index
  {
    if k > index {
      OutcomeAt(DecideOne(s, role, o, d.actions[index], d.id, index, AnswerAt(answers, index)).0, role, o, d, answers, index + 1, k);
    }
  }

  lemma {:induction false} BeforeNext(s: State, role: nat, o: Observation, d: Decision, answers: seq<Answer>, index: nat, k: nat)
    requires role in s.connections && role in s.roles && index <= k < |d.actions|
    ensures Before(s, role, o, d, answers, index, k + 1)
         == DecideOne(Before(s, role, o, d, answers, index, k), role, o, d.actions[k], d.id, k, AnswerAt(answers, k)).0
    decreases k - index
  {
    var t := DecideOne(s, role, o, d.actions[index], d.id, index, AnswerAt(answers, index)).0;
    if k == index {
      assert Before(t, role, o, d, answers, index + 1, index + 1) == t;
    } else {
      BeforeNext(t, role, o, d, answers, index + 1, k);
    }
  }

  lemma {:induction false} BeforeFrame(s: State, role: nat, o: Observation, d: Decision, answers: seq<Answer>, k: nat)
    requires role in s.connections && role in s.roles && k <= |d.actions|
    ensures var t := Before(s, role, o, d, answers, 0, k);
            ActFrame(s, t, role) && PlacedBetween(s, t, d.id, 0, k)
    decreases k
  {
    if k > 0 {
      BeforeFrame(s, role, o, d, answers, k - 1);
      BeforeNext(s, role, o, d, answers, 0, k - 1);
      var t := Before(s, role, o, d, answers, 0, k - 1);
      DecideOneFrame(t, role, o, d, k - 1, AnswerAt(answers, k - 1));
      ActFrameTransitive(s, t, Before(s, role, o, d, answers, 0, k), role);
    }
  }

  /** The action is accepted exactly if, when its turn comes, it stays within its scope and the unit's or the
      request's state allows it. */
  lemma DecideAllInScope(s: State, role: nat, o: Observation, d: Decision, answers: seq<Answer>, k: nat)
    requires role in s.connections && role in s.roles && k < |d.actions|
    ensures var t, results := Before(s, role, o, d, answers, 0, k), DecideAll(s, role, o, d, 0, answers).1;
            results[k].Accepted? <==> InScope(t, role, o, d.actions[k], Named(d.id, k), AnswerAt(answers, k))
  {
    OutcomeAt(s, role, o, d, answers, 0, k);
    DecideOneFrame(Before(s, role, o, d, answers, 0, k), role, o, d, k, AnswerAt(answers, k));
  }

  // ---- When an action has the outcome it has alone -------------------------------------------------

  /** What an action depends on differs between two states of the game. */
  ghost predicate Disturbed(s: State, t: State, role: nat, o: Observation, a: Action, intent: IntentId)
    requires role in s.roles
  {
    Visible(o, a)
    && match a
       case Order(unit, _) =>
         && unit in s.roles[role].units
         && (Busy(s.traffic, unit) != Busy(t.traffic, unit)
             || (!Busy(s.traffic, unit) && intent !in s.placed && t.status != Running))
       case SelectGoal(_, _) => false
       case AuthorityDecision(r, _) => Decidable(s.traffic, role, r) != Decidable(t.traffic, role, r)
  }

  lemma SamePlayers(a: map<nat, Connection>, b: map<nat, Connection>)
    requires a.Keys == b.Keys && forall r :: r in a ==> b[r].mode == a[r].mode
    ensures Played(b) == Played(a)
  {
  }

  lemma SameSeats(s: State, t: State, role: nat)
    requires role in s.connections && ActFrame(s, t, role)
    ensures SeatsOf(t) == SeatsOf(s)
  {
    SamePlayers(s.connections, t.connections);
  }

  lemma OrderSameUnlessDisturbed(s: State, t: State, role: nat, a: Action, intent: IntentId, answer: Answer)
    requires role in s.connections && role in s.roles && ActFrame(s, t, role) && a.Order? && intent.Named?
    requires s.status == Running && !s.complete
    requires (intent in t.placed <==> intent in s.placed) && (intent in s.placed ==> t.placed[intent] == s.placed[intent])
    ensures var alone := Act(s, role, a, intent.namespace, intent.index, true, answer).1;
            var after := Act(t, role, a, intent.namespace, intent.index, true, answer).1;
            after == alone <==>
              !(a.unit in s.roles[role].units
                && (Busy(s.traffic, a.unit) != Busy(t.traffic, a.unit)
                    || (!Busy(s.traffic, a.unit) && intent !in s.placed && t.status != Running)))
  {
    SameSeats(s, t, role);
    var order := Submission(intent, role, a.unit, a.kind, true);
    SubmitRefusals(s, order, answer);
    SubmitRefusals(t, order, answer);
  }

  /** The answers of a submission, by cause. */
  lemma SubmitRefusals(s: State, order: Submission, answer: Answer)
    ensures Submit(s, order, answer).1 ==
            if order.intent in s.placed then
              if !SameOrder(s.placed[order.intent], order, s.tick) then Some(IntentConflict)
              else if s.placed[order.intent].accepted then None else Some(Rejected)
            else if s.status != Running || s.complete then Some(NotRunning)
            else if answer.wellFormed && Passes(SeatsOf(s), answer) then None else Some(Rejected)
  {
    DispatchNumbers(s.traffic, SeatsOf(s), s.nextId, order.intent, order.unit, order.kind.Move?, answer);
  }

  lemma SameUnlessDisturbed(s: State, t: State, role: nat, o: Observation, a: Action, intent: IntentId, answer: Answer)
    requires role in s.connections && role in s.roles && ActFrame(s, t, role) && intent.Named?
    requires s.status == Running && !s.complete
    requires (intent in t.placed <==> intent in s.placed) && (intent in s.placed ==> t.placed[intent] == s.placed[intent])
    ensures DecideOne(t, role, o, a, intent.namespace, intent.index, answer).1
            == DecideOne(s, role, o, a, intent.namespace, intent.index, answer).1
            <==> !Disturbed(s, t, role, o, a, intent)
  {
    if a.Order? {
      OrderSameUnlessDisturbed(s, t, role, a, intent, answer);
    }
  }

  /** The exact condition. In a decision's turn an action has the outcome it would have alone, asked first,
      if and only if the actions before it did not disturb it. */
  lemma ActsAloneExactly(s: State, role: nat, o: Observation, d: Decision, answers: seq<Answer>, k: nat)
    requires role in s.connections && role in s.roles && k < |d.actions| && s.status == Running && !s.complete
    ensures var t, a := Before(s, role, o, d, answers, 0, k), d.actions[k];
            DecideAll(s, role, o, d, 0, answers).1[k] == DecideOne(s, role, o, a, d.id, k, AnswerAt(answers, k)).1
            <==> !Disturbed(s, t, role, o, a, Named(d.id, k))
  {
    var t := Before(s, role, o, d, answers, 0, k);
    OutcomeAt(s, role, o, d, answers, 0, k);
    BeforeFrame(s, role, o, d, answers, k);
    assert Named(d.id, k) in t.placed <==> Named(d.id, k) in s.placed;
    SameUnlessDisturbed(s, t, role, o, d.actions[k], Named(d.id, k), AnswerAt(answers, k));
  }

  // ---- What disturbs an order ------------------------------------------------------------------------

  ghost predicate GaveOrder(d: Decision, results: seq<Outcome>, j: nat, unit: nat) {
    j < |results| == |d.actions| && d.actions[j].Order? && d.actions[j].unit == unit && results[j].Accepted?
  }

  ghost function OrdersTo(d: Decision, results: seq<Outcome>, k: nat, unit: nat): set<IntentId> {
    set j: nat | j < k && GaveOrder(d, results, j, unit) :: Named(d.id, j)
  }

  /** Everything on its way to the unit comes from this decision. */
  ghost predicate OwnTraffic(s: State, t: State, d: Decision, results: seq<Outcome>, k: nat, unit: nat) {
    OnlyThese(t.traffic, unit, s.nextId, OrdersTo(d, results, k, unit))
  }

  /** What one action of a decision does to the orders on their way: nothing, a submission, or a decision
      about a request. */
  ghost predicate Moved(t: State, u: State, role: nat, o: Observation, a: Action, intent: IntentId, answer: Answer, accepted: bool) {
    || (u.traffic == t.traffic && (a.AuthorityDecision? ==> !accepted))
    || (a.Order?
        && (var sent := Dispatch(t.traffic, SeatsOf(t), t.nextId, intent, a.unit, a.kind.Move?, answer);
            u.traffic == sent.traffic && accepted == sent.accepted && (sent.halted ==> u.status == Paused)))
    || (a.AuthorityDecision? && a.request in o.requests
        && (var sent := Resolve(t.traffic, SeatsOf(t), t.nextId, role, a.request, a.approve, answer.sending);
            u.traffic == sent.traffic && accepted == sent.accepted && (sent.halted ==> u.status == Paused)))
  }

  lemma OneMoves(t: State, role: nat, o: Observation, a: Action, namespace: nat, index: nat, answer: Answer)
    requires role in t.connections && role in t.roles
    ensures var (u, outcome) := DecideOne(t, role, o, a, namespace, index, answer);
            Moved(t, u, role, o, a, Named(namespace, index), answer, outcome.Accepted?)
  {
  }

  lemma MovedKeepsOthers(
    t: State, u: State, role: nat, o: Observation, a: Action, intent: IntentId, answer: Answer, accepted: bool,
    unit: nat, start: nat, these: set<IntentId>)
    requires Moved(t, u, role, o, a, intent, answer, accepted) && OnlyThese(t.traffic, unit, start, these)
    requires start <= t.nextId && forall r :: r in o.requests ==> r < start
    ensures OnlyThese(u.traffic, unit, start, if accepted && a.Order? && a.unit == unit then these + {intent} else these)
  {
    if a.Order? {
      DispatchKeepsOthers(t.traffic, SeatsOf(t), t.nextId, intent, a.unit, a.kind.Move?, answer, unit, start, these);
    } else if a.AuthorityDecision? && a.request in o.requests {
      ResolveKeepsOthers(t.traffic, SeatsOf(t), t.nextId, role, a.request, a.approve, answer.sending, unit, start, these);
    }
  }

  lemma OrdersToNext(d: Decision, results: seq<Outcome>, k: nat, unit: nat)
    ensures OrdersTo(d, results, k + 1, unit)
         == OrdersTo(d, results, k, unit) + (if GaveOrder(d, results, k, unit) then {Named(d.id, k)} else {})
  {
  }

  lemma OwnStep(
    s: State, t: State, role: nat, o: Observation, d: Decision, k: nat, answer: Answer, results: seq<Outcome>, unit: nat)
    requires role in t.connections && role in t.roles && k < |d.actions| == |results| && s.nextId <= t.nextId
    requires OwnTraffic(s, t, d, results, k, unit) && forall r :: r in o.requests ==> r < s.nextId
    requires results[k] == DecideOne(t, role, o, d.actions[k], d.id, k, answer).1
    ensures OwnTraffic(s, DecideOne(t, role, o, d.actions[k], d.id, k, answer).0, d, results, k + 1, unit)
  {
    var (u, outcome) := DecideOne(t, role, o, d.actions[k], d.id, k, answer);
    OneMoves(t, role, o, d.actions[k], d.id, k, answer);
    MovedKeepsOthers(t, u, role, o, d.actions[k], Named(d.id, k), answer, outcome.Accepted?, unit, s.nextId,
                     OrdersTo(d, results, k, unit));
    OrdersToNext(d, results, k, unit);
  }

  /** Action k's step of the decision. */
  lemma StepAt(s: State, role: nat, o: Observation, d: Decision, answers: seq<Answer>, k: nat)
    requires role in s.connections && role in s.roles && k < |d.actions|
    ensures var t, u := Before(s, role, o, d, answers, 0, k), Before(s, role, o, d, answers, 0, k + 1);
            var results := DecideAll(s, role, o, d, 0, answers).1;
            && s.nextId <= t.nextId && |results| == |d.actions|
            && (u, results[k]) == DecideOne(t, role, o, d.actions[k], d.id, k, AnswerAt(answers, k))
  {
    BeforeFrame(s, role, o, d, answers, k);
    BeforeNext(s, role, o, d, answers, 0, k);
    OutcomeAt(s, role, o, d, answers, 0, k);
  }

  lemma {:induction false} EarlierOrdersOnly(s: State, role: nat, o: Observation, d: Decision, answers: seq<Answer>, k: nat, unit: nat)
    requires role in s.connections && role in s.roles && k <= |d.actions| && !Busy(s.traffic, unit)
    requires forall r :: r in o.requests ==> r < s.nextId
    ensures OwnTraffic(s, Before(s, role, o, d, answers, 0, k), d, DecideAll(s, role, o, d, 0, answers).1, k, unit)
    decreases k
  {
    if k > 0 {
      EarlierOrdersOnly(s, role, o, d, answers, k - 1, unit);
      StepAt(s, role, o, d, answers, k - 1);
      OwnStep(s, Before(s, role, o, d, answers, 0, k - 1), role, o, d, k - 1, AnswerAt(answers, k - 1),
              DecideAll(s, role, o, d, 0, answers).1, unit);
    }
  }

  /** An earlier order of the decision to this unit was accepted and is still on its way. */
  ghost predicate StillOnItsWay(d: Decision, results: seq<Outcome>, t: State, j: nat, k: nat, unit: nat) {
    j < k && GaveOrder(d, results, j, unit) && OnItsWay(t.traffic, Named(d.id, j), unit)
  }

  /** For a unit nothing was on its way to: its order has the outcome it would have alone if and only if no
      earlier order of the decision is still on its way to it, and the game was not stopped before an
      identifier was used up for it. */
  lemma OrderActsAloneExactly(s: State, role: nat, o: Observation, d: Decision, answers: seq<Answer>, k: nat)
    requires role in s.connections && role in s.roles && k < |d.actions| && s.status == Running && !s.complete
    requires forall r :: r in o.requests ==> r < s.nextId
    requires d.actions[k].Order? && Visible(o, d.actions[k]) && d.actions[k].unit in s.roles[role].units
    requires !Busy(s.traffic, d.actions[k].unit)
    ensures var t, results := Before(s, role, o, d, answers, 0, k), DecideAll(s, role, o, d, 0, answers).1;
            results[k] == DecideOne(s, role, o, d.actions[k], d.id, k, AnswerAt(answers, k)).1
            <==> (forall j :: !StillOnItsWay(d, results, t, j, k, d.actions[k].unit))
                 && (t.status == Running || Named(d.id, k) in s.placed)
  {
    var t, results, unit := Before(s, role, o, d, answers, 0, k), DecideAll(s, role, o, d, 0, answers).1, d.actions[k].unit;
    ActsAloneExactly(s, role, o, d, answers, k);
    EarlierOrdersOnly(s, role, o, d, answers, k, unit);
    BusyExactly(t.traffic, unit, s.nextId, OrdersTo(d, results, k, unit));
    if j :| StillOnItsWay(d, results, t, j, k, unit) {
      assert Named(d.id, j) in OrdersTo(d, results, k, unit);
    } else if Busy(t.traffic, unit) {
      var intent :| intent in OrdersTo(d, results, k, unit) && OnItsWay(t.traffic, intent, unit);
      assert StillOnItsWay(d, results, t, intent.index, k, unit);
    }
  }

  // ---- What disturbs the rest ------------------------------------------------------------------------

  /** Action j decided the request. */
  ghost predicate AnsweredAt(d: Decision, results: seq<Outcome>, j: nat, r: nat) {
    && j < |results| == |d.actions| && results[j].Accepted?
    && d.actions[j].AuthorityDecision? && d.actions[j].request == r
  }

  /** An action before k did. */
  ghost predicate Answered(d: Decision, results: seq<Outcome>, k: nat, r: nat) {
    exists j :: 0 <= j < k && AnsweredAt(d, results, j, r)
  }

  lemma MovedKeepsDecidable(
    t: State, u: State, role: nat, o: Observation, a: Action, intent: IntentId, answer: Answer, accepted: bool, r: nat)
    requires Moved(t, u, role, o, a, intent, answer, accepted) && r < t.nextId
    ensures var answered := accepted && a.AuthorityDecision? && a.request == r;
            && (Decidable(u.traffic, role, r) == Decidable(t.traffic, role, r) || answered)
            && (answered ==> Decidable(t.traffic, role, r))
  {
    if a.Order? {
      DispatchKeepsDecidable(t.traffic, SeatsOf(t), t.nextId, intent, a.unit, a.kind.Move?, answer, role, r);
    } else if a.AuthorityDecision? && (a.request != r || !Decidable(t.traffic, role, r)) {
      ResolveKeepsDecidable(t.traffic, SeatsOf(t), t.nextId, role, a.request, a.approve, answer.sending, role, r);
    }
  }

  lemma {:induction false} DecidableUntilAnswered(s: State, role: nat, o: Observation, d: Decision, answers: seq<Answer>, k: nat, r: nat)
    requires role in s.connections && role in s.roles && k <= |d.actions| && r < s.nextId
    ensures var t, results := Before(s, role, o, d, answers, 0, k), DecideAll(s, role, o, d, 0, answers).1;
            if Answered(d, results, k, r) then Decidable(s.traffic, role, r)
            else Decidable(t.traffic, role, r) == Decidable(s.traffic, role, r)
    decreases k
  {
    if k > 0 {
      var t, results := Before(s, role, o, d, answers, 0, k - 1), DecideAll(s, role, o, d, 0, answers).1;
      DecidableUntilAnswered(s, role, o, d, answers, k - 1, r);
      StepAt(s, role, o, d, answers, k - 1);
      OneMoves(t, role, o, d.actions[k - 1], d.id, k - 1, AnswerAt(answers, k - 1));
      MovedKeepsDecidable(t, Before(s, role, o, d, answers, 0, k), role, o, d.actions[k - 1], Named(d.id, k - 1),
                          AnswerAt(answers, k - 1), results[k - 1].Accepted?, r);
      AnsweredNext(d, results, k - 1, r);
    }
  }

  lemma AnsweredNext(d: Decision, results: seq<Outcome>, k: nat, r: nat)
    ensures Answered(d, results, k + 1, r) <==> Answered(d, results, k, r) || AnsweredAt(d, results, k, r)
  {
  }

  /** A decision about a request has the outcome it would have alone, unless an earlier action of the decision
      answered that request and it is not this role's to decide again. */
  lemma RequestActsAloneExactly(s: State, role: nat, o: Observation, d: Decision, answers: seq<Answer>, k: nat)
    requires role in s.connections && role in s.roles && k < |d.actions| && s.status == Running && !s.complete
    requires d.actions[k].AuthorityDecision? && d.actions[k].request in o.requests && d.actions[k].request < s.nextId
    ensures var t, results := Before(s, role, o, d, answers, 0, k), DecideAll(s, role, o, d, 0, answers).1;
            results[k] == DecideOne(s, role, o, d.actions[k], d.id, k, AnswerAt(answers, k)).1
            <==> !Answered(d, results, k, d.actions[k].request)
                 || Decidable(t.traffic, role, d.actions[k].request)
  {
    ActsAloneExactly(s, role, o, d, answers, k);
    DecidableUntilAnswered(s, role, o, d, answers, k, d.actions[k].request);
  }

  /** Action j decides a request for the unit. */
  ghost predicate DecidesFor(s: State, role: nat, o: Observation, d: Decision, answers: seq<Answer>, j: nat, unit: nat)
    requires role in s.connections && role in s.roles
  {
    && j < |d.actions| && d.actions[j].AuthorityDecision?
    && DecideAll(s, role, o, d, 0, answers).1[j].Accepted?
    && (var requests := Before(s, role, o, d, answers, 0, j).traffic.requests;
        d.actions[j].request in requests && requests[d.actions[j].request].unit == unit)
  }

  lemma MovedKeepsBusy(
    t: State, u: State, role: nat, o: Observation, a: Action, intent: IntentId, answer: Answer, accepted: bool, unit: nat)
    requires Moved(t, u, role, o, a, intent, answer, accepted)
    requires Numbered(t.traffic, t.nextId) && Busy(t.traffic, unit) && u.status == Running
    requires !(accepted && a.AuthorityDecision? && a.request in t.traffic.requests
               && t.traffic.requests[a.request].unit == unit)
    ensures Busy(u.traffic, unit)
  {
    if a.Order? {
      DispatchKeepsBusy(t.traffic, SeatsOf(t), t.nextId, intent, a.unit, a.kind.Move?, answer, unit);
    } else if a.AuthorityDecision? {
      ResolveKeepsBusy(t.traffic, SeatsOf(t), t.nextId, role, a.request, a.approve, answer.sending, unit);
    }
  }

  /** One action leaves a busy unit busy, unless it stops the game or decides a request for the unit. */
  lemma BusyStep(t: State, role: nat, o: Observation, a: Action, namespace: nat, index: nat, answer: Answer, unit: nat)
    requires role in t.connections && role in t.roles && Numbered(t.traffic, t.nextId) && Busy(t.traffic, unit)
    ensures var (u, outcome) := DecideOne(t, role, o, a, namespace, index, answer);
            || u.status != Running || Busy(u.traffic, unit)
            || (outcome.Accepted? && a.AuthorityDecision? && a.request in t.traffic.requests
                && t.traffic.requests[a.request].unit == unit)
  {
    var (u, outcome) := DecideOne(t, role, o, a, namespace, index, answer);
    OneMoves(t, role, o, a, namespace, index, answer);
    if u.status == Running && !(outcome.Accepted? && a.AuthorityDecision? && a.request in t.traffic.requests
                                && t.traffic.requests[a.request].unit == unit) {
      MovedKeepsBusy(t, u, role, o, a, Named(namespace, index), answer, outcome.Accepted?, unit);
    }
  }

  lemma BeforeNumbered(s: State, role: nat, o: Observation, d: Decision, answers: seq<Answer>, k: nat)
    requires role in s.connections && role in s.roles && k <= |d.actions| && Numbered(s.traffic, s.nextId)
    ensures var t := Before(s, role, o, d, answers, 0, k); Numbered(t.traffic, t.nextId)
  {
    BeforeFrame(s, role, o, d, answers, k);
  }

  /** A unit that is busy to begin with keeps later orders out until the game stops or the decision itself
      decides a request for the unit. */
  lemma {:induction false} BusyUntilDecided(s: State, role: nat, o: Observation, d: Decision, answers: seq<Answer>, k: nat, unit: nat)
    requires role in s.connections && role in s.roles && k <= |d.actions|
    requires Numbered(s.traffic, s.nextId) && Busy(s.traffic, unit)
    requires forall j :: 0 <= j < k ==> !DecidesFor(s, role, o, d, answers, j, unit)
    ensures var t := Before(s, role, o, d, answers, 0, k); t.status == Running ==> Busy(t.traffic, unit)
    decreases k
  {
    if k > 0 {
      var t := Before(s, role, o, d, answers, 0, k - 1);
      BusyUntilDecided(s, role, o, d, answers, k - 1, unit);
      BeforeNumbered(s, role, o, d, answers, k - 1);
      StepAt(s, role, o, d, answers, k - 1);
      StopsForGood(t, role, o, d, k - 1, AnswerAt(answers, k - 1));
      assert !DecidesFor(s, role, o, d, answers, k - 1, unit);
      if t.status == Running {
        BusyStep(t, role, o, d.actions[k - 1], d.id, k - 1, AnswerAt(answers, k - 1), unit);
      }
    }
  }

  lemma StopsForGood(t: State, role: nat, o: Observation, d: Decision, k: nat, answer: Answer)
    requires role in t.connections && role in t.roles && k < |d.actions|
    ensures DecideOne(t, role, o, d.actions[k], d.id, k, answer).0.status == Running ==> t.status == Running
  {
    DecideOneFrame(t, role, o, d, k, answer);
  }

  /** The failing decision: two move orders to one free unit, each sent by radio. Alone the second would be
      accepted; after the first it is refused, for the first is still on its way. */
  lemma SecondOrderRefused(s: State, role: nat, o: Observation, d: Decision, unit: nat, x: nat, y: nat)
    requires role in s.connections && role in s.roles && s.status == Running && !s.complete
    requires d.actions == [Order(unit, Move(x)), Order(unit, Move(y))]
    requires unit in s.roles[role].units && !Busy(s.traffic, unit)
    requires Named(d.id, 0) !in s.placed && Named(d.id, 1) !in s.placed
    ensures var sent := Answer(true, Direct, Queued);
            && DecideAll(s, role, o, d, 0, [sent, sent]).1 == [Accepted(d.actions[0]), Refused(OrderPending)]
            && DecideOne(s, role, o, d.actions[1], d.id, 1, sent).1 == Accepted(d.actions[1])
  {
    var sent := Answer(true, Direct, Queued);
    var answers := [sent, sent];
    FirstWaits(s, role, o, d.actions[0], d.id, sent);
    OutcomeAt(s, role, o, d, answers, 0, 0);
    OutcomeAt(s, role, o, d, answers, 0, 1);
    BeforeNext(s, role, o, d, answers, 0, 0);
    var results := DecideAll(s, role, o, d, 0, answers).1;
    assert results[0] == Accepted(d.actions[0]) && results[1] == Refused(OrderPending);
  }

  /** A direct order by radio is accepted and keeps its unit busy. */
  lemma FirstWaits(s: State, role: nat, o: Observation, a: Action, namespace: nat, sent: Answer)
    requires role in s.connections && role in s.roles && s.status == Running && !s.complete
    requires a.Order? && a.kind.Move? && a.unit in s.roles[role].units && !Busy(s.traffic, a.unit)
    requires Named(namespace, 0) !in s.placed && sent == Answer(true, Direct, Queued)
    ensures var (t, outcome) := DecideOne(s, role, o, a, namespace, 0, sent); outcome == Accepted(a) && Busy(t.traffic, a.unit)
  {
    var t := DecideOne(s, role, o, a, namespace, 0, sent).0;
    assert t.traffic.waiting[s.nextId] == Execute(Named(namespace, 0), a.unit);
    assert Carries(t.traffic.waiting[s.nextId], a.unit);
    assert Carried(t.traffic, a.unit);
  }

  // ---- Conflicting identifiers -----------------------------------------------------------------------

  ghost predicate Conflicts(s: State, role: nat, d: Decision, now: nat, answers: seq<Answer>, k: nat) {
    && Acceptable(s, role, d, now) && k < |d.actions|
    && DecideAll(s, role, s.connections[role].work.value, d, 0, answers).1[k] == Refused(IntentConflict)
  }

  /** The identifier stands for another order, or for this one given earlier. */
  ghost predicate Taken(s: State, order: Submission) {
    order.intent in s.placed
    && (var first := s.placed[order.intent];
        first.role != order.role || first.unit != order.unit || first.kind != order.kind || first.tick != s.tick)
  }

  lemma OneConflicts(t: State, role: nat, o: Observation, a: Action, namespace: nat, index: nat, answer: Answer)
    requires role in t.connections && role in t.roles
    ensures DecideOne(t, role, o, a, namespace, index, answer).1 == Refused(IntentConflict)
            <==> a.Order? && Visible(o, a) && a.unit in t.roles[role].units && !Busy(t.traffic, a.unit)
                 && Taken(t, Submission(Named(namespace, index), role, a.unit, a.kind, true))
  {
    if a.Order? {
      SubmitRefusals(t, Submission(Named(namespace, index), role, a.unit, a.kind, true), answer);
    }
  }

  /** An order of a decision is refused as a conflict if and only if, when its turn comes, all else allows it
      and its identifier stands for another order. */
  lemma ConflictsExactly(s: State, role: nat, d: Decision, now: nat, answers: seq<Answer>, k: nat)
    requires Acceptable(s, role, d, now) && k < |d.actions|
    ensures var o, a := s.connections[role].work.value, d.actions[k];
            var t := Before(s, role, o, d, answers, 0, k);
            Conflicts(s, role, d, now, answers, k)
            <==> a.Order? && Visible(o, a) && a.unit in s.roles[role].units && !Busy(t.traffic, a.unit)
                 && Taken(s, Submission(Named(d.id, k), role, a.unit, a.kind, true))
  {
    var o, a := s.connections[role].work.value, d.actions[k];
    var t := Before(s, role, o, d, answers, 0, k);
    OutcomeAt(s, role, o, d, answers, 0, k);
    BeforeFrame(s, role, o, d, answers, k);
    assert Named(d.id, k) in t.placed <==> Named(d.id, k) in s.placed;
    OneConflicts(t, role, o, a, d.id, k, AnswerAt(answers, k));
  }

  /** What a controller can know before it decides: no decision under an identifier ever conflicts if and only
      if none of its actions' identifiers has been used. An identifier the server has not issued is safe. */
  lemma ConflictFreeExactly(s: State, role: nat, id: nat, now: nat, unit: nat)
    requires Inv(s) && role in s.connections && role in s.roles && id !in s.decisions
    requires s.connections[role].work.Some? && Open(s, role, s.connections[role].work.value.id, now)
    requires unit in s.roles[role].units && !Busy(s.traffic, unit)
    ensures (forall d: Decision, answers, k: nat :: d.id == id ==> !Conflicts(s, role, d, now, answers, k))
            <==> (forall k :: 0 <= k < MAX_ACTIONS ==> Named(id, k) !in s.placed)
    ensures id >= s.nextId ==> forall k: nat :: Named(id, k) !in s.placed
  {
    if k: nat :| k < MAX_ACTIONS && Named(id, k) in s.placed {
      var d := ConflictingDecision(s, role, id, now, unit, k);
      assert Conflicts(s, role, d, now, [], k);
    } else {
      forall d: Decision, answers, k: nat | d.id == id ensures !Conflicts(s, role, d, now, answers, k) {
        if Acceptable(s, role, d, now) && k < |d.actions| {
          ConflictsExactly(s, role, d, now, answers, k);
        }
      }
    }
  }

  /** Harmless actions up to k, and there an order unlike the one the identifier stands for. */
  lemma ConflictingDecision(s: State, role: nat, id: nat, now: nat, unit: nat, k: nat) returns (d: Decision)
    requires role in s.connections && role in s.roles && id !in s.decisions
    requires s.connections[role].work.Some? && Open(s, role, s.connections[role].work.value.id, now)
    requires unit in s.roles[role].units && !Busy(s.traffic, unit) && k < MAX_ACTIONS && Named(id, k) in s.placed
    ensures d.id == id && Conflicts(s, role, d, now, [], k)
  {
    var kind := if s.placed[Named(id, k)].kind == Move(0) then Move(1) else Move(0);
    var actions := seq(k + 1, i => if i < k then SelectGoal(0, []) else Order(unit, kind));
    var o := s.connections[role].work.value;
    d := Decision(id, PROTOCOL_VERSION, o.id, s.connections[role].generation, actions, 0, None);
    GoalsLeaveTraffic(s, role, o, d, [], k);
    ConflictsExactly(s, role, d, now, [], k);
  }

  lemma {:induction false} GoalsLeaveTraffic(s: State, role: nat, o: Observation, d: Decision, answers: seq<Answer>, k: nat)
    requires role in s.connections && role in s.roles && k <= |d.actions|
    requires forall i :: 0 <= i < k ==> d.actions[i].SelectGoal?
    ensures Before(s, role, o, d, answers, 0, k).traffic == s.traffic
    decreases k
  {
    if k > 0 {
      GoalsLeaveTraffic(s, role, o, d, answers, k - 1);
      BeforeNext(s, role, o, d, answers, 0, k - 1);
    }
  }
}
