/** The chain of command over whole runs: an order asked for is executed only after every deciding role has
    approved it, in turn, and at most once. */
module OrderRequests {
  import opened Ordered
  import opened OrderTraffic

  /** An order the simulation was given, with the request it was asked for by. */
  datatype Executed = Executed(intent: IntentId, unit: nat, request: Option<nat>)
  datatype State = State(traffic: Traffic, next: nat, executed: seq<Executed>)

  /** Everything that happens to orders and requests: submissions, decisions by a role or, for a vacant role,
      automatic, roles being left and taken, the radio, aborts, and identifiers used elsewhere. over says that
      the mission is complete, when deliveries execute nothing. */
  datatype Event =
    | Give(seats: Seats, intent: IntentId, unit: nat, move: bool, answer: Answer)
    | Decide(seats: Seats, role: nat, r: nat, approve: bool, sending: Sending)
    | Automatic(seats: Seats, r: nat, approve: bool, sending: Sending)
    | Seat(r: nat, attended: bool)
    | Deliver(seats: Seats, m: nat, over: bool)
    | Lose(m: nat)
    | Abort
    | Elsewhere(next: nat)

  predicate Enabled(s: State, e: Event) {
    match e
    case Automatic(_, r, _, _) =>
      r in s.traffic.requests && s.traffic.requests[r].standing.WaitingVacant?
      && s.traffic.requests[r].step < |s.traffic.requests[r].steps|
    case Seat(r, _) =>
      r in s.traffic.requests && (s.traffic.requests[r].standing.PendingHuman? || s.traffic.requests[r].standing.WaitingVacant?)
    case Deliver(_, m, _) => m in s.traffic.waiting
    case Lose(m) => m in s.traffic.waiting
    case Elsewhere(next) => s.next <= next
    case _ => true
  }

  /** The last approval of an order that is executed in the approver's own terminal. */
  predicate ExecutesHere(q: Request, approve: bool, sending: Sending) {
    approve && q.step + 1 == |q.steps| && q.executable && q.intent.Some? && sending == Local
  }

  function Concluded(s: State, seats: Seats, r: nat, approve: bool, sending: Sending): State
    requires r in s.traffic.requests && s.traffic.requests[r].step < |s.traffic.requests[r].steps|
  {
    var q, sent := s.traffic.requests[r], Conclude(s.traffic, seats, s.next, r, approve, sending);
    State(sent.traffic, sent.next,
          if ExecutesHere(q, approve, sending) then s.executed + [Executed(q.intent.value, q.unit, Some(r))] else s.executed)
  }

  /** A delivery runs what waits for the message; a request only if it still waits for this one. */
  function Arrived(s: State, seats: Seats, m: nat, over: bool): State
    requires m in s.traffic.waiting
  {
    var t, w := s.traffic.(waiting := s.traffic.waiting - {m}), s.traffic.waiting[m];
    var awaited := !w.Execute? && w.request in t.requests && t.requests[w.request].standing == InTransit(m);
    match w
    case Execute(intent, unit) =>
      s.(traffic := t, executed := if over then s.executed else s.executed + [Executed(intent, unit, None)])
    case Activate(r) =>
      if !awaited then s.(traffic := t)
      else
        var q := t.requests[r];
        s.(traffic := WithRequest(t, r, q.(standing := if q.step < |q.steps| then Asked(seats, q.steps[q.step]) else Closed)))
    case Approval(r, intent, unit) =>
      if !awaited then s.(traffic := t)
      else
        s.(traffic := WithRequest(t, r, t.requests[r].(standing := Closed)),
           executed := if over then s.executed else s.executed + [Executed(intent, unit, Some(r))])
  }

  function Lost(t: Traffic, m: nat): Traffic
    requires m in t.waiting
  {
    var w, left := t.waiting[m], t.(waiting := t.waiting - {m});
    if !w.Execute? && w.request in t.requests && t.requests[w.request].standing == InTransit(m)
    then WithRequest(left, w.request, t.requests[w.request].(standing := Closed)) else left
  }

  function Apply(s: State, e: Event): State
    requires Enabled(s, e)
  {
    match e
    case Give(seats, intent, unit, move, answer) =>
      var sent := Dispatch(s.traffic, seats, s.next, intent, unit, move, answer);
      State(sent.traffic, sent.next,
            if sent.accepted && AtOnce(answer) then s.executed + [Executed(intent, unit, None)] else s.executed)
    case Decide(seats, role, r, approve, sending) =>
      if Decidable(s.traffic, role, r) then Concluded(s, seats, r, approve, sending) else s
    case Automatic(seats, r, approve, sending) => Concluded(s, seats, r, approve, sending)
    case Seat(r, attended) =>
      s.(traffic := WithRequest(s.traffic, r, s.traffic.requests[r].(standing := if attended then PendingHuman else WaitingVacant)))
    case Deliver(seats, m, over) => Arrived(s, seats, m, over)
    case Lose(m) => s.(traffic := Lost(s.traffic, m))
    case Abort => s.(traffic := Dropping(s.traffic))
    case Elsewhere(next) => s.(next := next)
  }

  ghost predicate Valid(s: State, events: seq<Event>)
    decreases |events|
  {
    events == [] || (Enabled(s, events[0]) && Valid(Apply(s, events[0]), events[1..]))
  }

  ghost function Run(s: State, events: seq<Event>): State
    requires Valid(s, events)
    decreases |events|
  {
    if events == [] then s else Run(Apply(s, events[0]), events[1..])
  }

  function Start(next: nat): State {
    State(Traffic(map[], map[]), next, [])
  }

  // ---- What every event keeps ------------------------------------------------------------------------

  /** So far every step was approved by its role, in turn; a refusal is the last decision and closes. */
  ghost predicate InTurn(q: Request) {
    && q.step <= |q.steps| && q.step <= |q.decisions| <= q.step + 1
    && (forall i :: 0 <= i < q.step ==> q.decisions[i] == Verdict(q.steps[i], true))
    && (|q.decisions| == q.step + 1 ==>
          q.step < |q.steps| && q.decisions[q.step] == Verdict(q.steps[q.step], false) && q.standing.Closed?)
  }

  /** An order that has left its request was approved at every step, and can be executed. */
  ghost predicate RequestOk(q: Request) {
    && InTurn(q)
    && (if q.intent.Some? then q.intent.value == q.asked else FullyApproved(q))
    && (q.standing.PendingHuman? || q.standing.WaitingVacant? ==> q.step < |q.steps| && q.intent.Some?)
    && (q.standing.InTransit? ==> (q.step == |q.steps| <==> q.intent.None?))
  }

  ghost predicate FullyApproved(q: Request) {
    q.executable && q.step == |q.steps| == |q.decisions|
  }

  /** A waiting approval carries the order of its request, and is what the request waits for. */
  ghost predicate WaitingOk(t: Traffic, m: nat)
    requires m in t.waiting
  {
    match t.waiting[m]
    case Execute(_, _) => true
    case Activate(r) => r in t.requests && (t.requests[r].standing == InTransit(m) ==> t.requests[r].intent.Some?)
    case Approval(r, intent, unit) =>
      && r in t.requests && t.requests[r].standing == InTransit(m) && t.requests[r].intent.None?
      && intent == t.requests[r].asked && unit == t.requests[r].unit
  }

  /** An executed order that was asked for is the one of a request approved at every step, which is closed. */
  ghost predicate ExecutedOk(s: State, j: int)
    requires 0 <= j < |s.executed|
  {
    var x := s.executed[j];
    x.request.Some? ==>
      && x.request.value in s.traffic.requests
      && (var q := s.traffic.requests[x.request.value];
          q.intent.None? && q.standing.Closed? && x.intent == q.asked && x.unit == q.unit)
  }

  ghost predicate Inv(s: State) {
    && Numbered(s.traffic, s.next)
    && (forall r :: r in s.traffic.requests ==> RequestOk(s.traffic.requests[r]))
    && (forall m :: m in s.traffic.waiting ==> WaitingOk(s.traffic, m))
    && (forall j :: 0 <= j < |s.executed| ==> ExecutedOk(s, j))
    && (forall i, j :: 0 <= i < j < |s.executed| && s.executed[i].request.Some? ==> s.executed[i].request != s.executed[j].request)
  }

  /** More waits, more is asked for, and perhaps a direct order was executed. */
  lemma MoreKeepsInv(s: State, t: State)
    requires Inv(s) && t.next >= s.next && Numbered(t.traffic, t.next)
    requires forall r :: r in s.traffic.requests ==> r in t.traffic.requests && t.traffic.requests[r] == s.traffic.requests[r]
    requires forall r :: r in t.traffic.requests && r !in s.traffic.requests ==> RequestOk(t.traffic.requests[r])
    requires forall m :: m in t.traffic.waiting ==>
      (m in s.traffic.waiting && t.traffic.waiting[m] == s.traffic.waiting[m]) || WaitingOk(t.traffic, m)
    requires t.executed == s.executed || (exists intent, unit :: t.executed == s.executed + [Executed(intent, unit, None)])
    ensures Inv(t)
  {
    forall m | m in t.traffic.waiting ensures WaitingOk(t.traffic, m) {
      if m in s.traffic.waiting && t.traffic.waiting[m] == s.traffic.waiting[m] { assert WaitingOk(s.traffic, m); }
    }
    forall j | 0 <= j < |s.executed| ensures ExecutedOk(t, j) {
      assert ExecutedOk(s, j);
    }
  }

  lemma PassedKeepsInv(s: State, seats: Seats, intent: IntentId, unit: nat, move: bool, answer: Answer)
    requires Inv(s) && Passes(seats, answer)
    ensures Inv(Apply(s, Give(seats, intent, unit, move, answer)))
  {
    var t := Apply(s, Give(seats, intent, unit, move, answer));
    DispatchNumbers(s.traffic, seats, s.next, intent, unit, move, answer);
    if answer.route.ByRequest? {
      assert RequestOk(t.traffic.requests[s.next + 1]);
    }
    MoreKeepsInv(s, t);
  }

  lemma GiveKeepsInv(s: State, seats: Seats, intent: IntentId, unit: nat, move: bool, answer: Answer)
    requires Inv(s)
    ensures Inv(Apply(s, Give(seats, intent, unit, move, answer)))
  {
    if Passes(seats, answer) {
      PassedKeepsInv(s, seats, intent, unit, move, answer);
    } else {
      NotSent(s, seats, intent, unit, move, answer);
      DroppingKeepsInv(s);
      var t := Apply(s, Give(seats, intent, unit, move, answer));
      LaterKeepsInv(if t.traffic == s.traffic then s else s.(traffic := Dropping(s.traffic)), t.next);
    }
  }

  lemma NotSent(s: State, seats: Seats, intent: IntentId, unit: nat, move: bool, answer: Answer)
    requires !Passes(seats, answer)
    ensures var t := Apply(s, Give(seats, intent, unit, move, answer));
            s.next <= t.next && (t == s.(next := t.next) || t == s.(next := t.next, traffic := Dropping(s.traffic)))
  {
  }

  /** Aborts close what waits for a message, and no order is lost to a request that could send it again. */
  lemma DroppingKeepsInv(s: State)
    requires Inv(s)
    ensures Inv(s.(traffic := Dropping(s.traffic)))
  {
    var t := s.(traffic := Dropping(s.traffic));
    forall r | r in t.traffic.requests ensures RequestOk(t.traffic.requests[r]) {
      assert RequestOk(s.traffic.requests[r]);
    }
    forall j | 0 <= j < |t.executed| ensures ExecutedOk(t, j) {
      assert ExecutedOk(s, j);
    }
  }

  /** One request changes, open to decision before, and perhaps one message more waits for it. */
  lemma OneRequestKeepsInv(s: State, t: State, r: nat)
    requires Inv(s) && r in s.traffic.requests && t.next >= s.next && Numbered(t.traffic, t.next)
    requires s.traffic.requests[r].standing.PendingHuman? || s.traffic.requests[r].standing.WaitingVacant?
    requires t.traffic.requests.Keys == s.traffic.requests.Keys && RequestOk(t.traffic.requests[r])
    requires forall q :: q in s.traffic.requests && q != r ==> t.traffic.requests[q] == s.traffic.requests[q]
    requires t.traffic.requests[r].asked == s.traffic.requests[r].asked && t.traffic.requests[r].unit == s.traffic.requests[r].unit
    requires forall m :: m in t.traffic.waiting ==>
      (m in s.traffic.waiting && t.traffic.waiting[m] == s.traffic.waiting[m]) || WaitingOk(t.traffic, m)
    requires t.traffic.requests[r].standing.InTransit? ==> t.traffic.requests[r].standing.message >= s.next
    requires t.executed == s.executed
             || (t.executed == s.executed + [Executed(t.traffic.requests[r].asked, t.traffic.requests[r].unit, Some(r))]
                 && t.traffic.requests[r].intent.None? && t.traffic.requests[r].standing.Closed?)
    ensures Inv(t)
  {
    assert RequestOk(s.traffic.requests[r]);
    forall q | q in t.traffic.requests ensures RequestOk(t.traffic.requests[q]) {
      if q != r { assert RequestOk(s.traffic.requests[q]); }
    }
    forall m | m in t.traffic.waiting ensures WaitingOk(t.traffic, m) {
      if m in s.traffic.waiting && t.traffic.waiting[m] == s.traffic.waiting[m] { assert WaitingOk(s.traffic, m); }
    }
    forall j | 0 <= j < |s.executed| ensures s.executed[j].request != Some(r) && ExecutedOk(t, j) {
      assert ExecutedOk(s, j);
    }
  }

  /** A decision is recorded; a refusal closes, and an approval moves the request on, or its order out of it. */
  ghost predicate Concludes(q: Request, n: Request, approve: bool)
    requires q.step < |q.steps|
  {
    && n.decisions == q.decisions + [Verdict(q.steps[q.step], approve)] && n.steps == q.steps && n.executable == q.executable
    && n.asked == q.asked && n.unit == q.unit && n.step == q.step + (if approve then 1 else 0)
    && (if !approve then n.intent == q.intent && n.standing.Closed?
        else if n.step < |n.steps| then n.intent == q.intent
        else (n.intent == q.intent && n.standing.Closed?)
             || (n.intent.None? && q.executable && (n.standing.Closed? || n.standing.InTransit?)))
  }

  lemma ConcludesExactly(t: Traffic, seats: Seats, next: nat, r: nat, approve: bool, sending: Sending)
    requires r in t.requests && t.requests[r].step < |t.requests[r].steps|
    ensures var q, u := t.requests[r], Conclude(t, seats, next, r, approve, sending).traffic.requests;
            && u.Keys == t.requests.Keys && Concludes(q, u[r], approve)
            && (u[r].standing.InTransit? ==> u[r].standing.message == next)
            && (ExecutesHere(q, approve, sending) ==> u[r].intent.None? && u[r].standing.Closed?)
  {
  }

  lemma ConcludedIsOk(q: Request, n: Request, approve: bool)
    requires RequestOk(q) && q.step < |q.steps| && q.intent.Some? && |q.decisions| == q.step && Concludes(q, n, approve)
    ensures RequestOk(n)
  {
  }

  /** What deciding a step makes of its request. */
  lemma ConcludeRequest(t: Traffic, seats: Seats, next: nat, r: nat, approve: bool, sending: Sending)
    requires r in t.requests && t.requests[r].step < |t.requests[r].steps| && RequestOk(t.requests[r])
    requires t.requests[r].standing.PendingHuman? || t.requests[r].standing.WaitingVacant?
    ensures var q, u := t.requests[r], Conclude(t, seats, next, r, approve, sending).traffic.requests;
            && u.Keys == t.requests.Keys && RequestOk(u[r])
            && u[r].asked == q.asked && u[r].unit == q.unit
            && (u[r].standing.InTransit? ==> u[r].standing.message == next)
            && (ExecutesHere(q, approve, sending) ==> u[r].intent.None? && u[r].standing.Closed?)
  {
    ConcludesExactly(t, seats, next, r, approve, sending);
    ConcludedIsOk(t.requests[r], Conclude(t, seats, next, r, approve, sending).traffic.requests[r], approve);
  }

  /** And of the rest: nothing, or one message more waits, or everything is dropped. */
  lemma ConcludeRest(t: Traffic, seats: Seats, next: nat, r: nat, approve: bool, sending: Sending)
    requires r in t.requests && t.requests[r].step < |t.requests[r].steps| && t.requests[r].intent.Some?
    requires t.requests[r].intent.value == t.requests[r].asked
    ensures var sent := Conclude(t, seats, next, r, approve, sending); var u := sent.traffic;
            && next <= sent.next && (Numbered(t, next) ==> Numbered(u, sent.next))
            && (var base := if sent.halted then Dropping(t) else t;
                && (forall q :: q in t.requests && q != r ==> q in u.requests && u.requests[q] == base.requests[q])
                && (forall m :: m in u.waiting ==>
                      (m in base.waiting && u.waiting[m] == base.waiting[m]) || (m == next && WaitingOk(u, m))))
            && (sent.halted ==> !ExecutesHere(t.requests[r], approve, sending))
  {
  }

  lemma ConcludedKeepsBase(s: State, base: State, seats: Seats, r: nat, approve: bool, sending: Sending)
    requires Inv(s) && r in s.traffic.requests && s.traffic.requests[r].step < |s.traffic.requests[r].steps|
    requires s.traffic.requests[r].standing.PendingHuman? || s.traffic.requests[r].standing.WaitingVacant?
    requires base == if Conclude(s.traffic, seats, s.next, r, approve, sending).halted
                     then s.(traffic := Dropping(s.traffic)) else s
    ensures Inv(Concluded(s, seats, r, approve, sending))
  {
    var t := Concluded(s, seats, r, approve, sending);
    assert RequestOk(s.traffic.requests[r]);
    ConcludeRequest(s.traffic, seats, s.next, r, approve, sending);
    ConcludeRest(s.traffic, seats, s.next, r, approve, sending);
    DroppingKeepsInv(s);
    assert base.traffic.requests[r] == s.traffic.requests[r];
    OneRequestKeepsInv(base, t, r);
  }

  lemma ConcludedKeepsInv(s: State, seats: Seats, r: nat, approve: bool, sending: Sending)
    requires Inv(s) && r in s.traffic.requests && s.traffic.requests[r].step < |s.traffic.requests[r].steps|
    requires s.traffic.requests[r].standing.PendingHuman? || s.traffic.requests[r].standing.WaitingVacant?
    ensures Inv(Concluded(s, seats, r, approve, sending))
  {
    var halted := Conclude(s.traffic, seats, s.next, r, approve, sending).halted;
    ConcludedKeepsBase(s, if halted then s.(traffic := Dropping(s.traffic)) else s, seats, r, approve, sending);
  }

  lemma SeatKeepsInv(s: State, r: nat, attended: bool)
    requires Inv(s) && Enabled(s, Seat(r, attended))
    ensures Inv(Apply(s, Seat(r, attended)))
  {
    assert RequestOk(s.traffic.requests[r]);
    OneRequestKeepsInv(s, Apply(s, Seat(r, attended)), r);
  }

  /** A message stops waiting, and the request that waited for it moves on. */
  lemma ArrivalKeepsInv(s: State, t: State, m: nat)
    requires Inv(s) && m in s.traffic.waiting && t.next == s.next && t.traffic.waiting == s.traffic.waiting - {m}
    requires t.traffic.requests.Keys == s.traffic.requests.Keys
    requires forall r :: r in s.traffic.requests && s.traffic.requests[r].standing != InTransit(m) ==>
      t.traffic.requests[r] == s.traffic.requests[r]
    requires forall r :: r in s.traffic.requests && s.traffic.requests[r].standing == InTransit(m) ==>
      var q := s.traffic.requests[r];
      || t.traffic.requests[r] == q.(standing := Closed)
      || (q.intent.Some? && q.step < |q.steps| && t.traffic.requests[r] == q.(standing := t.traffic.requests[r].standing)
          && !t.traffic.requests[r].standing.InTransit?)
      || (t.traffic.requests[r] == q)
    requires t.executed == s.executed
             || (exists intent, unit :: t.executed == s.executed + [Executed(intent, unit, None)])
             || (s.traffic.waiting[m].Approval?
                 && (var w := s.traffic.waiting[m];
                     t.executed == s.executed + [Executed(w.intent, w.unit, Some(w.request))]
                     && t.traffic.requests[w.request].standing.Closed?))
    ensures Inv(t)
  {
    assert WaitingOk(s.traffic, m);
    forall r | r in t.traffic.requests ensures RequestOk(t.traffic.requests[r]) {
      assert RequestOk(s.traffic.requests[r]);
    }
    forall n | n in t.traffic.waiting ensures WaitingOk(t.traffic, n) {
      assert WaitingOk(s.traffic, n);
    }
    forall j | 0 <= j < |s.executed|
      ensures ExecutedOk(t, j) && (s.executed[j].request.Some? ==>
                s.traffic.requests[s.executed[j].request.value].standing.Closed?)
    {
      assert ExecutedOk(s, j);
    }
  }

  lemma DeliverKeepsInv(s: State, seats: Seats, m: nat, over: bool)
    requires Inv(s) && m in s.traffic.waiting
    ensures Inv(Arrived(s, seats, m, over))
  {
    assert WaitingOk(s.traffic, m);
    var w := s.traffic.waiting[m];
    if !w.Execute? {
      assert RequestOk(s.traffic.requests[w.request]);
    }
    ArrivalKeepsInv(s, Arrived(s, seats, m, over), m);
  }

  lemma LoseKeepsInv(s: State, m: nat)
    requires Inv(s) && m in s.traffic.waiting
    ensures Inv(s.(traffic := Lost(s.traffic, m)))
  {
    assert WaitingOk(s.traffic, m);
    ArrivalKeepsInv(s, s.(traffic := Lost(s.traffic, m)), m);
  }

  lemma ApplyKeepsInv(s: State, e: Event)
    requires Inv(s) && Enabled(s, e)
    ensures Inv(Apply(s, e))
  {
    match e
    case Give(seats, intent, unit, move, answer) => GiveKeepsInv(s, seats, intent, unit, move, answer);
    case Decide(seats, role, r, approve, sending) =>
      if Decidable(s.traffic, role, r) {
        ConcludedKeepsInv(s, seats, r, approve, sending);
      }
    case Automatic(seats, r, approve, sending) => ConcludedKeepsInv(s, seats, r, approve, sending);
    case Seat(r, attended) => SeatKeepsInv(s, r, attended);
    case Deliver(seats, m, over) => DeliverKeepsInv(s, seats, m, over);
    case Lose(m) => LoseKeepsInv(s, m);
    case Abort => DroppingKeepsInv(s);
    case Elsewhere(next) => LaterKeepsInv(s, next);
  }

  lemma LaterKeepsInv(s: State, next: nat)
    requires Inv(s) && s.next <= next
    ensures Inv(s.(next := next))
  {
    var t := s.(next := next);
    forall j | 0 <= j < |t.executed| ensures ExecutedOk(t, j) {
      assert ExecutedOk(s, j);
    }
  }

  lemma {:induction false} RunKeepsInv(s: State, events: seq<Event>)
    requires Inv(s) && Valid(s, events)
    ensures Inv(Run(s, events))
    decreases |events|
  {
    if events != [] {
      ApplyKeepsInv(s, events[0]);
      RunKeepsInv(Apply(s, events[0]), events[1..]);
    }
  }

  // ---- The chain of command ----------------------------------------------------------------------------

  /** The decisions on the request are the approvals of all its deciding roles, in turn. */
  ghost predicate ApprovedByAll(q: Request) {
    |q.decisions| == |q.steps| && forall i :: 0 <= i < |q.steps| ==> q.decisions[i] == Verdict(q.steps[i], true)
  }

  /** In every run an executed order that had to be asked for is the order, and its unit the unit, of a request
      that all deciding roles have approved, each in its turn, under a policy that can execute; and no
      request's order is executed twice. */
  lemma OnlyApprovedOrdersExecute(next: nat, events: seq<Event>, j: nat)
    requires Valid(Start(next), events) && j < |Run(Start(next), events).executed|
    requires Run(Start(next), events).executed[j].request.Some?
    ensures var t := Run(Start(next), events); var x := t.executed[j];
            && x.request.value in t.traffic.requests
            && (var q := t.traffic.requests[x.request.value];
                ApprovedByAll(q) && q.executable && x.intent == q.asked && x.unit == q.unit && q.standing.Closed?)
            && (forall i :: 0 <= i < |t.executed| && i != j ==> t.executed[i].request != x.request)
  {
    RunKeepsInv(Start(next), events);
    var t := Run(Start(next), events);
    assert ExecutedOk(t, j) && RequestOk(t.traffic.requests[t.executed[j].request.value]);
  }

  /** A request one of its roles refused is closed, and its order is never executed nor on its way. */
  lemma RefusedNeverExecutes(next: nat, events: seq<Event>, r: nat, k: nat)
    requires Valid(Start(next), events) && r in Run(Start(next), events).traffic.requests
    requires k < |Run(Start(next), events).traffic.requests[r].decisions|
    requires !Run(Start(next), events).traffic.requests[r].decisions[k].approved
    ensures var t := Run(Start(next), events); var q := t.traffic.requests[r];
            && q.standing.Closed? && k == |q.decisions| - 1
            && (forall j :: 0 <= j < |t.executed| ==> t.executed[j].request != Some(r))
            && (forall m :: m in t.traffic.waiting ==> !(t.traffic.waiting[m].Approval? && t.traffic.waiting[m].request == r))
  {
    RunKeepsInv(Start(next), events);
    var t := Run(Start(next), events);
    assert RequestOk(t.traffic.requests[r]);
    forall j | 0 <= j < |t.executed| ensures t.executed[j].request != Some(r) {
      assert ExecutedOk(t, j);
    }
    forall m | m in t.traffic.waiting ensures !(t.traffic.waiting[m].Approval? && t.traffic.waiting[m].request == r) {
      assert WaitingOk(t.traffic, m);
    }
  }

  /** A decision is recorded under the role that made it, and only on the request it is about: an approval goes
      on to the next role, or to the unit, and a refusal sends nothing. */
  lemma DecisionsAreRecorded(s: State, seats: Seats, role: nat, r: nat, approve: bool, sending: Sending)
    requires Inv(s) && Decidable(s.traffic, role, r)
    ensures var t := Apply(s, Decide(seats, role, r, approve, sending)); var q, u := s.traffic.requests[r], t.traffic.requests[r];
            && u.decisions == q.decisions + [Verdict(role, approve)] && u.step == q.step + (if approve then 1 else 0)
            && u.steps == q.steps && u.unit == q.unit && u.asked == q.asked && u.executable == q.executable
            && (!approve ==> u.standing.Closed? && t.traffic.waiting == s.traffic.waiting && t.executed == s.executed)
            && (approve && q.step + 1 < |q.steps| && q.steps[q.step + 1] in seats.known && Arrives(sending) ==>
                  t.executed == s.executed
                  && u.standing == if sending == Queued then InTransit(s.next)
                                   else if q.steps[q.step + 1] in seats.attended then PendingHuman else WaitingVacant)
            && (approve && q.step + 1 == |q.steps| && q.executable && sending == Queued ==>
                  s.next in t.traffic.waiting && t.traffic.waiting[s.next] == Approval(r, q.asked, q.unit))
            && (approve && q.step + 1 == |q.steps| && q.executable && sending == Local ==>
                  t.executed == s.executed + [Executed(q.asked, q.unit, Some(r))])
  {
    assert RequestOk(s.traffic.requests[r]);
  }

  // ---- Nothing gets stuck --------------------------------------------------------------------------------

  /** A request in transit is what some message still on its way waits for. */
  ghost predicate TransitWaits(t: Traffic) {
    forall r :: r in t.requests && t.requests[r].standing.InTransit? ==>
      var m := t.requests[r].standing.message;
      m in t.waiting && !t.waiting[m].Execute? && t.waiting[m].request == r
  }

  lemma DroppingEndsTransit(t: Traffic)
    requires TransitWaits(t)
    ensures Dropping(t).waiting == map[] && Dropping(t).requests.Keys == t.requests.Keys
    ensures forall r :: r in t.requests ==>
              Dropping(t).requests[r] == if t.requests[r].standing.InTransit? then t.requests[r].(standing := Closed) else t.requests[r]
  {
  }

  lemma GiveKeepsTransit(t: Traffic, seats: Seats, next: nat, intent: IntentId, unit: nat, move: bool, answer: Answer)
    requires TransitWaits(t) && Numbered(t, next)
    ensures TransitWaits(Dispatch(t, seats, next, intent, unit, move, answer).traffic)
  {
    DroppingEndsTransit(t);
  }

  /** One request changes, and what waits stays but for a new message it may wait for. */
  lemma OneKeepsTransit(t: Traffic, u: Traffic, r: nat)
    requires TransitWaits(t) && u.requests.Keys == t.requests.Keys && r in t.requests && !t.requests[r].standing.InTransit?
    requires forall q :: q in t.requests && q != r ==> u.requests[q] == t.requests[q]
    requires forall m :: m in t.waiting ==> m in u.waiting && u.waiting[m] == t.waiting[m]
    requires u.requests[r].standing.InTransit? ==>
      var m := u.requests[r].standing.message; m in u.waiting && !u.waiting[m].Execute? && u.waiting[m].request == r
    ensures TransitWaits(u)
  {
  }

  lemma ConcludeKeepsTransit(t: Traffic, seats: Seats, next: nat, r: nat, approve: bool, sending: Sending)
    requires TransitWaits(t) && Numbered(t, next) && r in t.requests && t.requests[r].step < |t.requests[r].steps|
    requires t.requests[r].standing.PendingHuman? || t.requests[r].standing.WaitingVacant?
    ensures TransitWaits(Conclude(t, seats, next, r, approve, sending).traffic)
  {
    var sent := Conclude(t, seats, next, r, approve, sending);
    if sent.halted {
      DroppingEndsTransit(t);
      OneKeepsTransit(Dropping(t), sent.traffic, r);
    } else {
      OneKeepsTransit(t, sent.traffic, r);
    }
  }

  lemma ArrivalKeepsTransit(s: State, seats: Seats, m: nat, over: bool)
    requires TransitWaits(s.traffic) && m in s.traffic.waiting
    ensures TransitWaits(Arrived(s, seats, m, over).traffic) && TransitWaits(Lost(s.traffic, m))
  {
  }

  lemma ApplyKeepsTransit(s: State, e: Event)
    requires TransitWaits(s.traffic) && Numbered(s.traffic, s.next) && Enabled(s, e)
    ensures TransitWaits(Apply(s, e).traffic)
  {
    match e
    case Give(seats, intent, unit, move, answer) => GiveKeepsTransit(s.traffic, seats, s.next, intent, unit, move, answer);
    case Decide(seats, role, r, approve, sending) =>
      if Decidable(s.traffic, role, r) {
        ConcludeKeepsTransit(s.traffic, seats, s.next, r, approve, sending);
      }
    case Automatic(seats, r, approve, sending) => ConcludeKeepsTransit(s.traffic, seats, s.next, r, approve, sending);
    case Deliver(seats, m, over) => ArrivalKeepsTransit(s, seats, m, over);
    case Lose(m) => ArrivalKeepsTransit(s, Seats({}, {}), m, false);
    case Abort => DroppingEndsTransit(s.traffic);
    case _ =>
  }

  lemma {:induction false} RunKeepsTransit(s: State, events: seq<Event>)
    requires Inv(s) && TransitWaits(s.traffic) && Valid(s, events)
    ensures TransitWaits(Run(s, events).traffic)
    decreases |events|
  {
    if events != [] {
      ApplyKeepsInv(s, events[0]);
      ApplyKeepsTransit(s, events[0]);
      RunKeepsTransit(Apply(s, events[0]), events[1..]);
    }
  }

  /** No request is ever stuck: in every run a request in transit is what a message on its way waits for, whose
      delivery moves it on and whose loss closes it. */
  lemma NoRequestIsStuck(next: nat, events: seq<Event>, r: nat, seats: Seats, over: bool)
    requires Valid(Start(next), events) && r in Run(Start(next), events).traffic.requests
    requires Run(Start(next), events).traffic.requests[r].standing.InTransit?
    ensures var t := Run(Start(next), events); var m := t.traffic.requests[r].standing.message;
            && m in t.traffic.waiting
            && (var d := Apply(t, Deliver(seats, m, over)).traffic.requests; r in d && !d[r].standing.InTransit?)
            && (var l := Apply(t, Lose(m)).traffic.requests; r in l && l[r].standing.Closed?)
  {
    RunKeepsTransit(Start(next), events);
  }

  /** In every run an abort closes exactly the requests in transit, leaves the others as they were, and executes
      nothing; nothing waits afterwards. */
  lemma AbortClosesTransit(next: nat, events: seq<Event>)
    requires Valid(Start(next), events)
    ensures var t := Run(Start(next), events); var u := Apply(t, Abort);
            && u.traffic.waiting == map[] && u.executed == t.executed && u.traffic.requests.Keys == t.traffic.requests.Keys
            && (forall r :: r in t.traffic.requests ==>
                  var q := t.traffic.requests[r];
                  u.traffic.requests[r] == if q.standing.InTransit? then q.(standing := Closed) else q)
  {
    RunKeepsTransit(Start(next), events);
    DroppingEndsTransit(Run(Start(next), events).traffic);
  }
}
