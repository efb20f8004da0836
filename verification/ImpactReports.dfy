/** Paced delivery of impact telemetry, crates/server/src/impact_reports.rs, over values. Unlike an
    acknowledgement, a report counts as delivered when a scan of the message log says so, and its
    attempts are counted per sending role, recipient and order. */
module ImpactReports {
  import opened Ordered

  const MAX_ATTEMPTS: nat := 4

  datatype Status = Running | Paused
  datatype Route = Route(role: nat, recipient: nat, interval: nat)
  datatype Report = Report(source: nat, intent: nat)
  datatype Key = Key(role: nat, recipient: nat, intent: nat)
  datatype Attempt = Attempt(tick: nat, count: nat)
  datatype Awaited = Awaited(recipient: nat, intent: nat)

  /** A logged message; impact says it is of the impact-report profile, interval is its route's. */
  datatype Record = Record(id: nat, impact: bool, key: Key, created: nat, interval: nat, delivered: bool)

  /** terminals gives each role's unit; received is what recipients know. abandoned and heard are history
      that no operation reads: the messages the radio still carries although nothing waits for them, and
      those whose waiting action ran. */
  datatype State = State(
    status: Status, tick: nat, profile: bool, routes: seq<Route>, terminals: map<nat, nat>,
    reports: seq<Report>, attempts: map<Key, Attempt>, pending: map<nat, Awaited>,
    log: seq<Record>, next: nat, received: set<Awaited>, heard: set<nat>, abandoned: set<nat>)

  datatype Outcome = Accepted | Refused | StoreFailed

  /** One report a route has to carry. */
  datatype Item = Item(route: Route, intent: nat)

  function KeyOf(item: Item): Key {
    Key(item.route.role, item.route.recipient, item.intent)
  }

  predicate Delivered(s: State, key: Key) {
    exists i :: 0 <= i < |s.log| && s.log[i].delivered && s.log[i].impact && s.log[i].key == key
  }

  predicate InFlight(s: State, key: Key) {
    exists m :: m in s.pending && s.pending[m] == Awaited(key.recipient, key.intent)
  }

  function AttemptOf(s: State, key: Key): Attempt {
    if key in s.attempts then s.attempts[key] else Attempt(0, 0)
  }

  function LocalIntents(reports: seq<Report>, terminal: nat): (intents: seq<nat>)
    ensures forall intent :: intent in intents <==> Report(terminal, intent) in reports
  {
    if reports == [] then []
    else (if reports[0].source == terminal then [reports[0].intent] else []) + LocalIntents(reports[1..], terminal)
  }

  function ItemsOf(route: Route, intents: seq<nat>): (items: seq<Item>)
    ensures forall item :: item in items <==> item.route == route && item.intent in intents
  {
    if intents == [] then [] else [Item(route, intents[0])] + ItemsOf(route, intents[1..])
  }

  /** The route exists, its role has a terminal, and that terminal holds the report. */
  predicate ToCarry(item: Item, routes: seq<Route>, terminals: map<nat, nat>, reports: seq<Report>) {
    && item.route in routes && item.route.role in terminals
    && Report(terminals[item.route.role], item.intent) in reports
  }

  /** The reports to carry, route by route, skipping routes whose role is gone. */
  function Items(routes: seq<Route>, terminals: map<nat, nat>, reports: seq<Report>): (items: seq<Item>)
    ensures forall item :: item in items <==> ToCarry(item, routes, terminals, reports)
  {
    if routes == [] then []
    else
      (if routes[0].role in terminals
       then ItemsOf(routes[0], LocalIntents(reports, terminals[routes[0].role])) else [])
      + Items(routes[1..], terminals, reports)
  }

  predicate Exhausted(s: State, key: Key) {
    !InFlight(s, key) && key in s.attempts && s.attempts[key].count >= MAX_ATTEMPTS
  }

  predicate Settled(s: State) {
    forall route, report :: route in s.routes && report in s.reports ==> RouteSettled(s, route, report)
  }

  /** Unless the route's role is gone or the report is not its own: delivered, or exhausted. */
  predicate RouteSettled(s: State, route: Route, report: Report) {
    route.role in s.terminals && s.terminals[route.role] == report.source ==>
      var key := Key(route.role, route.recipient, report.intent);
      Delivered(s, key) || Exhausted(s, key)
  }

  lemma SettledItems(s: State)
    ensures Settled(s) <==>
              forall item :: item in Items(s.routes, s.terminals, s.reports) ==> Delivered(s, KeyOf(item)) || Exhausted(s, KeyOf(item))
  {
    if Settled(s) {
      forall item | item in Items(s.routes, s.terminals, s.reports) ensures Delivered(s, KeyOf(item)) || Exhausted(s, KeyOf(item)) {
        assert RouteSettled(s, item.route, Report(s.terminals[item.route.role], item.intent));
      }
    }
    if forall item :: item in Items(s.routes, s.terminals, s.reports) ==> Delivered(s, KeyOf(item)) || Exhausted(s, KeyOf(item)) {
      forall route, report | route in s.routes && report in s.reports ensures RouteSettled(s, route, report) {
        var item := Item(route, report.intent);
        if route.role in s.terminals && s.terminals[route.role] == report.source {
          assert ToCarry(item, s.routes, s.terminals, s.reports);
          assert KeyOf(item) == Key(route.role, route.recipient, report.intent);
        }
      }
    }
  }

  predicate Due(s: State, item: Item) {
    var key := KeyOf(item);
    var attempt := AttemptOf(s, key);
    && !Delivered(s, key)
    && !InFlight(s, key)
    && attempt.count < MAX_ATTEMPTS
    && (attempt.count == 0 || SaturatingSub(s.tick, attempt.tick) >= item.route.interval)
  }

  /** Forget every waiting action. The radio is not told: it goes on carrying the messages. */
  function Abandoned(s: State): State {
    s.(status := Paused, pending := map[], abandoned := s.abandoned + s.pending.Keys)
  }

  function SendOne(s: State, item: Item, outcome: Outcome): State
    requires item.route.role in s.terminals
  {
    if !Due(s, item) then s
    else
      var key := KeyOf(item);
      var local := s.terminals[item.route.role] == item.route.recipient;
      var sent := Record(s.next, true, key, s.tick, item.route.interval, local && outcome != StoreFailed);
      var tried := s.(
        attempts := s.attempts[key := Attempt(s.tick, AttemptOf(s, key).count + 1)],
        log := s.log + [sent], next := s.next + 1);
      if outcome == StoreFailed then
        var aborted := Abandoned(tried);
        if local then aborted else aborted.(abandoned := aborted.abandoned + {s.next})
      else if local then
        tried.(received := s.received + {Awaited(key.recipient, key.intent)}, heard := s.heard + {s.next})
      else if outcome == Refused then tried
      else tried.(pending := s.pending[s.next := Awaited(key.recipient, key.intent)])
  }

  function Head(outcomes: seq<Outcome>): Outcome {
    if outcomes == [] then Accepted else outcomes[0]
  }

  function Tail(outcomes: seq<Outcome>): seq<Outcome> {
    if outcomes == [] then [] else outcomes[1..]
  }

  ghost predicate Known(items: seq<Item>, terminals: map<nat, nat>) {
    forall item :: item in items ==> item.route.role in terminals
  }

  /** The transport's answers are used up only by the items that are sent. */
  function SendAll(s: State, items: seq<Item>, outcomes: seq<Outcome>): State
    requires Known(items, s.terminals)
    decreases |items|
  {
    if items == [] || s.status == Paused then s
    else
      assert items[0] in items;
      SendAll(SendOne(s, items[0], Head(outcomes)), items[1..], if Due(s, items[0]) then Tail(outcomes) else outcomes)
  }

  lemma ItemsKnown(routes: seq<Route>, terminals: map<nat, nat>, reports: seq<Report>)
    ensures Known(Items(routes, terminals, reports), terminals)
  {
  }

  function SendReports(s: State, outcomes: seq<Outcome>): State {
    if s.status != Running || s.routes == [] then s
    else if !s.profile then s.(status := Paused)
    else
      ItemsKnown(s.routes, s.terminals, s.reports);
      SendAll(s, Items(s.routes, s.terminals, s.reports), outcomes)
  }

  /** Abort is a failed write or network step that drops every waiting action; Erase is a failed write of a
      later transition of a delivered report, which takes the delivery off its record; Edit is an authority
      edit, which may move, drop or restore any role. */
  datatype Step =
    | Tick
    | Pause
    | Resume
    | Impact(report: Report)
    | Send(outcomes: seq<Outcome>)
    | Deliver(m: nat)
    | Lose(m: nat)
    | Abort
    | Erase(m: nat)
    | Edit(terminals: map<nat, nat>)
    | Foreign(key: Key, delivered: bool)

  predicate Enabled(s: State, step: Step) {
    match step
    case Deliver(m) => m in s.pending || m in s.abandoned
    case Lose(m) => m in s.pending
    case _ => true
  }

  /** Set the delivery mark of message m's record. */
  function Mark(log: seq<Record>, m: nat, delivered: bool): seq<Record> {
    if log == [] then []
    else if log[0].id == m then [log[0].(delivered := delivered)] + log[1..]
    else [log[0]] + Mark(log[1..], m, delivered)
  }

  /** A delivery marks the record; the recipient learns the report only if the message was waited for. */
  function Arrive(s: State, m: nat): State {
    var marked := s.(log := Mark(s.log, m, true));
    if m in s.pending then
      marked.(pending := s.pending - {m}, received := s.received + {s.pending[m]}, heard := s.heard + {m})
    else marked.(abandoned := s.abandoned - {m})
  }

  function Apply(s: State, step: Step): State
    requires Enabled(s, step)
  {
    match step
    case Tick => s.(tick := s.tick + 1)
    case Pause => s.(status := Paused)
    case Resume => s.(status := Running)
    case Impact(report) => s.(reports := s.reports + [report])
    case Send(outcomes) => SendReports(s, outcomes)
    case Deliver(m) => Arrive(s, m)
    case Lose(m) => s.(pending := s.pending - {m})
    case Abort => Abandoned(s)
    case Erase(m) => s.(status := Paused, log := Mark(s.log, m, false))
    case Edit(terminals) => s.(terminals := terminals)
    case Foreign(key, delivered) =>
      s.(log := s.log + [Record(s.next, false, key, s.tick, 0, delivered)], next := s.next + 1)
  }

  predicate Valid(s: State, steps: seq<Step>)
    decreases |steps|
  {
    steps == [] || (Enabled(s, steps[0]) && Valid(Apply(s, steps[0]), steps[1..]))
  }

  function Run(s: State, steps: seq<Step>): State
    requires Valid(s, steps)
    decreases |steps|
  {
    if steps == [] then s else Run(Apply(s, steps[0]), steps[1..])
  }

  predicate Fresh(s: State) {
    && s.attempts == map[] && s.pending == map[] && s.log == []
    && s.received == {} && s.heard == {} && s.abandoned == {}
  }
}
