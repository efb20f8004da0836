/** The acknowledgement protocol of crates/server/src/execution_acks.rs over values: the part of
    a game it touches, each of its operations, and the environment steps it runs between. */
module ExecutionAcks {
  import opened Ordered

  const RETRY_TICKS: nat := 10
  const MAX_ATTEMPTS: nat := 4
  const DEFAULT_EXPIRY_TICKS: nat := 120
  const NANOS_PER_TICK: nat := 1_000_000_000

  datatype Status = Running | Paused
  datatype Profile = AckProfile | OtherProfile(code: nat)
  datatype OrderResult = OrderResult(intent: nat, verdict: nat)

  datatype Ack = Ack(
    issuer: nat, executor: nat, recipient: nat, executedTick: nat, result: OrderResult,
    attempts: nat, last: Option<nat>, received: Option<nat>)

  datatype Message = Message(
    id: nat, profile: Profile, originRole: nat, origin: nat, recipient: nat, createdTick: nat,
    intent: nat, executedTick: nat, result: OrderResult)

  datatype Record = Record(message: Message, deliveredNs: Option<nat>)

  /** roles gives each role's terminal; expiry is the acknowledgement profile's lifetime in ticks,
      absent when the profile is missing; log is every message ever recorded, oldest first. Two fields
      are history that no operation reads: heard gives the delivery time of each message whose waiting
      action ran, abandoned the messages the radio still carries although nothing waits for them. */
  datatype State = State(
    status: Status, tick: nat, expiry: Option<nat>, roles: map<nat, nat>,
    results: map<nat, Ack>, pending: map<nat, nat>, log: seq<Record>, next: nat,
    heard: map<nat, nat>, abandoned: set<nat>)

  /** What the transport answers to one transmission. */
  datatype Outcome = Accepted | Refused | StoreFailed

  predicate InFlight(s: State, intent: nat) {
    exists m :: m in s.pending && s.pending[m] == intent
  }

  predicate Closed(s: State, intent: nat)
    requires intent in s.results
  {
    s.results[intent].received.Some?
    || (s.results[intent].attempts >= MAX_ATTEMPTS && !InFlight(s, intent))
  }

  predicate Settled(s: State) {
    forall intent :: intent in s.results ==> Closed(s, intent)
  }

  predicate Due(s: State, intent: nat)
    requires intent in s.results
  {
    var ack := s.results[intent];
    && ack.received.None?
    && ack.attempts < MAX_ATTEMPTS
    && !InFlight(s, intent)
    && (ack.last.None? || SaturatingSub(s.tick, ack.last.value) >= RETRY_TICKS)
  }

  function DueIntents(s: State): seq<nat> {
    SortedKeys(set intent | intent in s.results && Due(s, intent))
  }

  function CeilTick(ns: nat): (tick: nat)
    ensures tick * NANOS_PER_TICK >= ns && forall t: nat :: t * NANOS_PER_TICK >= ns ==> tick <= t
  {
    (ns + NANOS_PER_TICK - 1) / NANOS_PER_TICK
  }

  /** The first role, in identifier order, whose terminal is the executing unit. */
  function OriginRole(s: State, ack: Ack): (origin: nat)
    ensures (exists role :: role in s.roles && s.roles[role] == ack.executor) ==>
              origin in s.roles && s.roles[origin] == ack.executor
    ensures (forall role :: role in s.roles ==> s.roles[role] != ack.executor) ==> origin == ack.issuer
    ensures forall role :: role in s.roles && s.roles[role] == ack.executor ==> origin <= role
  {
    var local := set role | role in s.roles && s.roles[role] == ack.executor;
    assert forall role :: role in s.roles && s.roles[role] == ack.executor ==> role in local;
    if local == {} then ack.issuer else Least(local)
  }

  /** The position of the record of message m, or |log| when there is none. */
  function IndexOf(log: seq<Record>, m: nat): (i: nat)
    ensures i <= |log|
    ensures i < |log| ==> log[i].message.id == m
    ensures forall k :: 0 <= k < i ==> log[k].message.id != m
  {
    if log == [] then 0
    else if log[0].message.id == m then 0
    else 1 + IndexOf(log[1..], m)
  }

  predicate Matches(message: Message, ack: Ack, intent: nat) {
    && message.profile == AckProfile
    && message.origin == ack.executor
    && message.recipient == ack.recipient
    && message.intent == intent
    && message.executedTick == ack.executedTick
    && message.result == ack.result
  }

  function RecordResult(s: State, issuer: nat, executor: nat, executedTick: nat, result: OrderResult): State
    requires issuer in s.roles
  {
    if result.intent in s.results then s
    else s.(results := s.results[result.intent :=
      Ack(issuer, executor, s.roles[issuer], executedTick, result, 0, None, None)])
  }

  function Receive(s: State, m: nat, intent: nat): State {
    var i := IndexOf(s.log, m);
    if i == |s.log| || intent !in s.results then s
    else
      var ack := s.results[intent];
      if s.log[i].deliveredNs.Some? && Matches(s.log[i].message, ack, intent) && ack.received.None?
      then s.(results := s.results[intent := ack.(received := Some(CeilTick(s.log[i].deliveredNs.value)))])
      else s
  }

  function Composed(s: State, intent: nat): Message
    requires intent in s.results
  {
    var ack := s.results[intent];
    Message(s.next, AckProfile, OriginRole(s, ack), ack.executor, ack.recipient, s.tick, intent,
            ack.executedTick, ack.result)
  }

  /** Forget every waiting action. The radio is not told: it goes on carrying the messages. */
  function Abandoned(s: State): State {
    s.(status := Paused, pending := map[], abandoned := s.abandoned + s.pending.Keys)
  }

  /** One attempt. A reply to the executor's own terminal is recorded as delivered at once. A failed
      write of the log pauses the game and abandons everything in flight, this message included. */
  function SendOne(s: State, intent: nat, outcome: Outcome): State
    requires intent in s.results
  {
    var ack := s.results[intent];
    var message := Composed(s, intent);
    var tried := s.(
      results := s.results[intent := ack.(attempts := ack.attempts + 1, last := Some(s.tick))],
      next := s.next + 1);
    var local := ack.executor == ack.recipient;
    if outcome == StoreFailed then
      var aborted := Abandoned(tried.(log := s.log + [Record(message, None)]));
      if local then aborted else aborted.(abandoned := aborted.abandoned + {s.next})
    else if local then
      Receive(tried.(log := s.log + [Record(message, Some(s.tick * NANOS_PER_TICK))],
                     heard := s.heard[s.next := s.tick * NANOS_PER_TICK]), s.next, intent)
    else if outcome == Refused then
      tried.(log := s.log + [Record(message, None)])
    else
      tried.(log := s.log + [Record(message, None)], pending := s.pending[s.next := intent])
  }

  function Head(outcomes: seq<Outcome>): Outcome {
    if outcomes == [] then Accepted else outcomes[0]
  }

  function Tail(outcomes: seq<Outcome>): seq<Outcome> {
    if outcomes == [] then [] else outcomes[1..]
  }

  function SendAll(s: State, due: seq<nat>, outcomes: seq<Outcome>): State
    requires forall intent :: intent in due ==> intent in s.results
    decreases |due|
  {
    if due == [] || s.status == Paused then s
    else
      SendAll(SendOne(s, due[0], Head(outcomes)), due[1..], Tail(outcomes))
  }

  function SendPending(s: State, outcomes: seq<Outcome>): State {
    if s.status != Running || s.results == map[] || Settled(s) then s
    else if s.expiry.None? then s.(status := Paused)
    else SendAll(s, DueIntents(s), outcomes)
  }

  function Confirmation(s: State, intent: nat): Option<(nat, nat, OrderResult)> {
    if intent in s.results && s.results[intent].received.Some? then
      Some((s.results[intent].executedTick, s.results[intent].received.value, s.results[intent].result))
    else None
  }

  function SaturatingMul(a: nat, b: nat): nat {
    if a * b <= U64_MAX then a * b else U64_MAX
  }

  function ConfirmationTimeout(s: State): (timeout: nat)
    ensures var expiry := if s.expiry.Some? then s.expiry.value else 120;
            4 * expiry + 30 <= U64_MAX ==> timeout == 4 * expiry + 30
    ensures timeout <= U64_MAX
  {
    SaturatingAdd(
      SaturatingMul(if s.expiry.Some? then s.expiry.value else DEFAULT_EXPIRY_TICKS, MAX_ATTEMPTS),
      SaturatingMul(RETRY_TICKS, MAX_ATTEMPTS - 1))
  }

  /** Everything that can happen to this part of a game. Deliver and Lose are the radio's; Abort is a
      failed write or network step that drops every waiting action; Erase is a failed write of a later
      transition of a delivered message, which takes the delivery off its record; Edit is an authority
      edit, which may move or drop any role; Foreign is another protocol's message. */
  datatype Step =
    | Tick
    | Pause
    | Resume
    | RecordStep(issuer: nat, executor: nat, executedTick: nat, result: OrderResult)
    | Send(outcomes: seq<Outcome>)
    | Deliver(m: nat, atNs: nat)
    | Lose(m: nat)
    | Abort
    | Erase(m: nat)
    | Edit(roles: map<nat, nat>)
    | Foreign(message: Message, deliveredNs: Option<nat>)

  predicate Enabled(s: State, step: Step) {
    match step
    case RecordStep(issuer, _, _, _) => issuer in s.roles
    case Deliver(m, _) => m in s.pending || m in s.abandoned
    case Lose(m) => m in s.pending
    case Foreign(message, _) => message.profile != AckProfile && message.id == s.next
    case _ => true
  }

  function MarkDelivered(s: State, m: nat, atNs: nat): State {
    var i := IndexOf(s.log, m);
    if i == |s.log| then s else s.(log := s.log[i := s.log[i].(deliveredNs := Some(atNs))])
  }

  /** A delivery runs the action that waits for the message; without one it only marks the record. */
  function Arrive(s: State, m: nat, atNs: nat): State {
    var marked := MarkDelivered(s, m, atNs);
    if m in s.pending then
      Receive(marked.(pending := s.pending - {m}, heard := s.heard[m := atNs]), m, s.pending[m])
    else marked.(abandoned := s.abandoned - {m})
  }

  function EraseDelivery(s: State, m: nat): State {
    var i := IndexOf(s.log, m);
    if i == |s.log| then s.(status := Paused)
    else s.(status := Paused, log := s.log[i := s.log[i].(deliveredNs := None)])
  }

  function Apply(s: State, step: Step): State
    requires Enabled(s, step)
  {
    match step
    case Tick => s.(tick := s.tick + 1)
    case Pause => s.(status := Paused)
    case Resume => s.(status := Running)
    case RecordStep(issuer, executor, executedTick, result) =>
      RecordResult(s, issuer, executor, executedTick, result)
    case Send(outcomes) => SendPending(s, outcomes)
    case Deliver(m, atNs) => Arrive(s, m, atNs)
    case Lose(m) => s.(pending := s.pending - {m})
    case Abort => Abandoned(s)
    case Erase(m) => EraseDelivery(s, m)
    case Edit(roles) => s.(roles := roles)
    case Foreign(message, deliveredNs) =>
      s.(log := s.log + [Record(message, deliveredNs)], next := s.next + 1)
  }

  predicate Fresh(s: State) {
    s.results == map[] && s.pending == map[] && s.log == [] && s.heard == map[] && s.abandoned == {}
  }

  predicate Valid(s: State, steps: seq<Step>)
    decreases |steps|
  {
    steps == [] || (Enabled(s, steps[0]) && Valid(Apply(s, steps[0]), steps[1..]))
  }

  function Run(s: State, steps: seq<Step>): State
    requires Valid(s, steps)
    decreases |steps|
  {
    if steps == [] then s else Run(Apply(s, steps[0]), steps[1..])
  }
}
