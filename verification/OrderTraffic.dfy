/** Orders on their way: the waiting deliveries that carry them, and the authority requests that ask for
    them. The parts of crates/server/src/main.rs and transport.rs that submit an order, decide a request
    and drop what waits, over values. */
module OrderTraffic {
  import opened Ordered

  /** Order identifiers: name-based ones are injective in their namespace, a decision or an observation, and
      the action's index; issued ones come from the game's own sequence. */
  datatype IntentId = Named(namespace: nat, index: nat) | Issued(id: nat)

  /** What waits for a message: an order to be executed at its unit, a request to reach its next deciding
      role, or an approved order to reach its unit. */
  datatype Waiting =
    | Execute(intent: IntentId, unit: nat)
    | Activate(request: nat)
    | Approval(request: nat, intent: IntentId, unit: nat)

  datatype Standing = InTransit(message: nat) | PendingHuman | WaitingVacant | PendingExternal | Closed

  datatype Verdict = Verdict(role: nat, approved: bool)

  /** steps are the roles that have to approve, in turn; decisions are those made so far; move says that the
      order moves its unit. intent is the order until it is sent; asked, which is history, is that order for
      good. */
  datatype Request = Request(
    unit: nat, move: bool, steps: seq<nat>, step: nat, executable: bool, intent: Option<IntentId>, asked: IntentId,
    standing: Standing, decisions: seq<Verdict>)

  datatype Traffic = Traffic(waiting: map<nat, Waiting>, requests: map<nat, Request>)

  /** The roles that exist, and those a player holds or a controller plays. */
  datatype Seats = Seats(known: set<nat>, attended: set<nat>)

  /** What the authority definition makes of an order, and what becomes of one transmission. */
  datatype Route = Direct | ByRequest(steps: seq<nat>, executable: bool) | Forbidden
  datatype Sending = Local | Queued | Dropped | Unwritten

  /** The rest of the game about one action: is an order well formed, how may it be given, and what becomes
      of the message it takes. */
  datatype Answer = Answer(wellFormed: bool, route: Route, sending: Sending)

  /** The outcome of one submission or decision; halted says that a write failed and the game is paused. */
  datatype Sent = Sent(traffic: Traffic, next: nat, accepted: bool, halted: bool)

  predicate Carries(w: Waiting, unit: nat) {
    !w.Activate? && w.unit == unit
  }

  predicate AsksFor(q: Request, unit: nat) {
    q.unit == unit && !q.standing.Closed?
  }

  predicate Carried(t: Traffic, unit: nat) {
    exists m :: m in t.waiting && Carries(t.waiting[m], unit)
  }

  /** An order for the unit waits, or a request to move it is open. */
  predicate OrderIsPending(t: Traffic, unit: nat) {
    Carried(t, unit) || exists r :: r in t.requests && AsksFor(t.requests[r], unit) && t.requests[r].move
  }

  /** Or any request for it is open: no controller may order it now. */
  predicate Busy(t: Traffic, unit: nat) {
    OrderIsPending(t, unit) || exists r :: r in t.requests && AsksFor(t.requests[r], unit)
  }

  predicate Arrives(sending: Sending) {
    sending == Local || sending == Queued
  }

  /** The order is let through: given directly, or asked for from a deciding role that exists. */
  predicate Passes(seats: Seats, answer: Answer) {
    && Arrives(answer.sending)
    && match answer.route
       case Direct => true
       case ByRequest(steps, _) => steps != [] && steps[0] in seats.known
       case Forbidden => false
  }

  /** It is executed at once: its unit and its issuer share a terminal. */
  predicate AtOnce(answer: Answer) {
    answer.route.Direct? && answer.sending == Local
  }

  function Asked(seats: Seats, role: nat): Standing {
    if role in seats.attended then PendingHuman else WaitingVacant
  }

  predicate AwaitsMessage(t: Traffic, r: nat) {
    && r in t.requests && t.requests[r].standing.InTransit?
    && (var m := t.requests[r].standing.message;
        m in t.waiting && !t.waiting[m].Execute? && t.waiting[m].request == r)
  }

  /** Nothing waits any more, and a request whose message was waited for is blocked. */
  function Dropping(t: Traffic): Traffic {
    Traffic(map[], map r | r in t.requests :: if AwaitsMessage(t, r) then t.requests[r].(standing := Closed) else t.requests[r])
  }

  /** A message that takes one identifier and does not get out. */
  function Failing(t: Traffic, next: nat, sending: Sending): Sent {
    if sending == Unwritten then Sent(Dropping(t), next + 1, false, true) else Sent(t, next + 1, false, false)
  }

  /** Give an order or ask for it. Its message takes the next identifier, a request the one after. */
  function Dispatch(t: Traffic, seats: Seats, next: nat, intent: IntentId, unit: nat, move: bool, answer: Answer): Sent {
    match answer.route
    case Forbidden => Sent(t, next, false, false)
    case Direct =>
      if !Arrives(answer.sending) then Failing(t, next, answer.sending)
      else if answer.sending == Local then Sent(t, next + 1, true, false)
      else Sent(t.(waiting := t.waiting[next := Execute(intent, unit)]), next + 1, true, false)
    case ByRequest(steps, executable) =>
      if steps == [] || steps[0] !in seats.known then Sent(t, next, false, false)
      else if !Arrives(answer.sending) then Failing(t, next, answer.sending)
      else
        var local := answer.sending == Local;
        var standing := if local then Asked(seats, steps[0]) else InTransit(next);
        var request := Request(unit, move, steps, 0, executable, Some(intent), intent, standing, []);
        Sent(Traffic(if local then t.waiting else t.waiting[next := Activate(next + 1)],
                     t.requests[next + 1 := request]), next + 2, true, false)
  }

  /** The role is the one that has to decide the request now. */
  predicate Decidable(t: Traffic, role: nat, r: nat) {
    && r in t.requests && t.requests[r].standing.PendingHuman?
    && t.requests[r].step < |t.requests[r].steps| && t.requests[r].steps[t.requests[r].step] == role
  }

  function WithRequest(t: Traffic, r: nat, q: Request): Traffic {
    t.(requests := t.requests[r := q])
  }

  /** Refusing a request closes it. Approving it sends it on to the next deciding role, or sends the order
      it asks for; a request that cannot be sent on is blocked. */
  function Resolve(t: Traffic, seats: Seats, next: nat, role: nat, r: nat, approve: bool, sending: Sending): (sent: Sent)
    ensures sent.accepted <==> Decidable(t, role, r)
  {
    if !Decidable(t, role, r) then Sent(t, next, false, false)
    else
      Conclude(t, seats, next, r, approve, sending)
  }

  /** The current step of a request is decided, by its role or automatically for a vacant one. */
  function Conclude(t: Traffic, seats: Seats, next: nat, r: nat, approve: bool, sending: Sending): (sent: Sent)
    requires r in t.requests && t.requests[r].step < |t.requests[r].steps|
    ensures sent.accepted
  {
    var before := t.requests[r];
    var q := before.(decisions := before.decisions + [Verdict(before.steps[before.step], approve)]);
    if !approve then Sent(WithRequest(t, r, q.(standing := Closed)), next, true, false)
    else Approve(t, seats, next, r, q.(step := q.step + 1), sending)
  }

  function Approve(t: Traffic, seats: Seats, next: nat, r: nat, q: Request, sending: Sending): (sent: Sent)
    ensures sent.accepted
  {
    var last := q.step >= |q.steps|;
    var blocked := q.(standing := Closed);
    if (if last then !q.executable || q.intent.None? else q.steps[q.step] !in seats.known)
    then Sent(WithRequest(t, r, blocked), next, true, false)
    else if !Arrives(sending) then
      var failed := Failing(t, next, sending);
      Sent(WithRequest(failed.traffic, r, blocked), failed.next, true, failed.halted)
    else if sending == Local then
      Sent(WithRequest(t, r, if last then q.(intent := None, standing := Closed)
                                     else q.(standing := Asked(seats, q.steps[q.step]))), next + 1, true, false)
    else
      var waiting := if last then Approval(r, q.intent.value, q.unit) else Activate(r);
      Sent(Traffic(t.waiting[next := waiting],
                   t.requests[r := q.(intent := if last then None else q.intent, standing := InTransit(next))]),
           next + 1, true, false)
  }

  /** Identifiers from next on are unused. */
  ghost predicate Numbered(t: Traffic, next: nat) {
    (forall m :: m in t.waiting ==> m < next) && (forall r :: r in t.requests ==> r < next)
  }

  lemma DispatchNumbers(t: Traffic, seats: Seats, next: nat, intent: IntentId, unit: nat, move: bool, answer: Answer)
    ensures var sent := Dispatch(t, seats, next, intent, unit, move, answer);
            && next <= sent.next && (Numbered(t, next) ==> Numbered(sent.traffic, sent.next))
            && (sent.accepted <==> Passes(seats, answer)) && (sent.halted ==> !sent.accepted)
  {
  }

  lemma ResolveNumbers(t: Traffic, seats: Seats, next: nat, role: nat, r: nat, approve: bool, sending: Sending)
    ensures var sent := Resolve(t, seats, next, role, r, approve, sending);
            next <= sent.next && (Numbered(t, next) ==> Numbered(sent.traffic, sent.next))
  {
  }

  // ---- What one submission or decision changes of the rest ---------------------------------------

  function IntentOf(w: Waiting): Option<IntentId> {
    if w.Activate? then None else Some(w.intent)
  }

  /** The order itself waits for delivery, or the request made for it is open. */
  predicate OnItsWay(t: Traffic, intent: IntentId, unit: nat) {
    || (exists m :: m in t.waiting && Carries(t.waiting[m], unit) && IntentOf(t.waiting[m]) == Some(intent))
    || (exists r :: r in t.requests && AsksFor(t.requests[r], unit) && t.requests[r].intent == Some(intent))
  }

  /** Whatever is on its way to the unit is one of these orders, its request made from some number on. */
  ghost predicate OnlyThese(t: Traffic, unit: nat, start: nat, these: set<IntentId>) {
    && (forall m :: m in t.waiting && Carries(t.waiting[m], unit) ==> t.waiting[m].intent in these)
    && (forall r :: r in t.requests && AsksFor(t.requests[r], unit) ==>
          r >= start && t.requests[r].intent.Some? && t.requests[r].intent.value in these)
  }

  lemma BusyExactly(t: Traffic, unit: nat, start: nat, these: set<IntentId>)
    requires OnlyThese(t, unit, start, these)
    ensures Busy(t, unit) <==> exists intent :: intent in these && OnItsWay(t, intent, unit)
  {
    if Carried(t, unit) {
      var m :| m in t.waiting && Carries(t.waiting[m], unit);
      assert OnItsWay(t, t.waiting[m].intent, unit);
    } else if Busy(t, unit) {
      var r :| r in t.requests && AsksFor(t.requests[r], unit);
      assert OnItsWay(t, t.requests[r].intent.value, unit);
    }
  }

  lemma DispatchKeepsOthers(
    t: Traffic, seats: Seats, next: nat, intent: IntentId, target: nat, move: bool, answer: Answer,
    unit: nat, start: nat, these: set<IntentId>)
    requires OnlyThese(t, unit, start, these) && start <= next
    ensures var sent := Dispatch(t, seats, next, intent, target, move, answer);
            OnlyThese(sent.traffic, unit, start, if sent.accepted && target == unit then these + {intent} else these)
  {
  }

  lemma ResolveKeepsOthers(
    t: Traffic, seats: Seats, next: nat, role: nat, r: nat, approve: bool, sending: Sending,
    unit: nat, start: nat, these: set<IntentId>)
    requires OnlyThese(t, unit, start, these) && r < start
    ensures OnlyThese(Resolve(t, seats, next, role, r, approve, sending).traffic, unit, start, these)
  {
  }

  /** An order that passes is on its way at once, unless it is executed at once. */
  lemma DispatchedIsOnItsWay(t: Traffic, seats: Seats, next: nat, intent: IntentId, unit: nat, move: bool, answer: Answer)
    requires Passes(seats, answer)
    ensures var sent := Dispatch(t, seats, next, intent, unit, move, answer);
            && !sent.halted && (if AtOnce(answer) then sent.traffic == t else OnItsWay(sent.traffic, intent, unit))
  {
    var u := Dispatch(t, seats, next, intent, unit, move, answer).traffic;
    if !AtOnce(answer) {
      if answer.route.Direct? {
        assert next in u.waiting && Carries(u.waiting[next], unit) && IntentOf(u.waiting[next]) == Some(intent);
      } else {
        assert next + 1 in u.requests && AsksFor(u.requests[next + 1], unit) && u.requests[next + 1].intent == Some(intent);
      }
    }
  }

  /** No submission changes what a role may decide about an older request. */
  lemma DispatchKeepsDecidable(
    t: Traffic, seats: Seats, next: nat, intent: IntentId, unit: nat, move: bool, answer: Answer, role: nat, r: nat)
    requires r < next
    ensures Decidable(Dispatch(t, seats, next, intent, unit, move, answer).traffic, role, r) == Decidable(t, role, r)
  {
  }

  /** And no decision about another request does. */
  lemma ResolveKeepsDecidable(
    t: Traffic, seats: Seats, next: nat, decider: nat, q: nat, approve: bool, sending: Sending, role: nat, r: nat)
    requires q != r || !Decidable(t, decider, q)
    ensures Decidable(Resolve(t, seats, next, decider, q, approve, sending).traffic, role, r) == Decidable(t, role, r)
  {
  }

  /** A unit stays busy unless everything waiting is dropped, or a request for it is decided. */
  lemma DispatchKeepsBusy(
    t: Traffic, seats: Seats, next: nat, intent: IntentId, target: nat, move: bool, answer: Answer, unit: nat)
    requires Busy(t, unit) && Numbered(t, next)
    ensures var sent := Dispatch(t, seats, next, intent, target, move, answer); !sent.halted ==> Busy(sent.traffic, unit)
  {
    var sent := Dispatch(t, seats, next, intent, target, move, answer);
    if !sent.halted {
      SameOrMoreIsBusy(t, sent.traffic, unit);
    }
  }

  lemma SameOrMoreIsBusy(t: Traffic, u: Traffic, unit: nat)
    requires Busy(t, unit)
    requires forall m :: m in t.waiting && Carries(t.waiting[m], unit) ==> m in u.waiting && Carries(u.waiting[m], unit)
    requires forall r :: r in t.requests && AsksFor(t.requests[r], unit) ==> r in u.requests && AsksFor(u.requests[r], unit)
    ensures Busy(u, unit)
  {
    if Carried(t, unit) {
      var m :| m in t.waiting && Carries(t.waiting[m], unit);
      assert m in u.waiting && Carries(u.waiting[m], unit);
    } else {
      var r :| r in t.requests && AsksFor(t.requests[r], unit);
      assert r in u.requests && AsksFor(u.requests[r], unit);
    }
  }

  lemma ResolveKeepsBusy(
    t: Traffic, seats: Seats, next: nat, role: nat, r: nat, approve: bool, sending: Sending, unit: nat)
    requires Busy(t, unit) && Numbered(t, next)
    ensures var sent := Resolve(t, seats, next, role, r, approve, sending);
            !sent.halted && !(sent.accepted && t.requests[r].unit == unit) ==> Busy(sent.traffic, unit)
  {
    var sent := Resolve(t, seats, next, role, r, approve, sending);
    if !sent.halted && !(sent.accepted && t.requests[r].unit == unit) {
      SameOrMoreIsBusy(t, sent.traffic, unit);
    }
  }
}
