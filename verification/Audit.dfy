/** The terminal-local audit log of crates/server/src/audit.rs over values: capture, projection to
    the roles at an event's terminal, the bounded volatile history and its eviction floors. */
module Audit {
  import opened Ordered

  const CAPACITY: nat := 10_000

  /** details stands for the byte count, fragment, attempt, acknowledgement flag and reason. */
  datatype Event = Event(
    kind: nat, atNs: nat, message: Option<nat>, packet: Option<nat>, hop: Option<nat>, details: nat,
    terminal: Option<nat>)

  datatype Metadata = Metadata(
    sequence: nat, kind: nat, atNs: nat, message: Option<nat>, packet: Option<nat>, hop: Option<nat>, details: nat)

  datatype Entry = Entry(role: nat, event: Metadata)
  datatype Projected = Projected(role: nat, ordinal: nat, event: Metadata)
  datatype Projection = Projection(events: seq<Projected>, heads: map<nat, nat>)

  datatype State = State(
    pending: seq<Event>, heads: map<nat, nat>, history: seq<Entry>, floors: map<nat, nat>)

  function Count(counts: map<nat, nat>, role: nat): nat {
    if role in counts then counts[role] else 0
  }

  /** Insert after every event that is not later, as a stable sort by time does. */
  function InsertByTime(events: seq<Event>, e: Event): seq<Event> {
    if events == [] || events[|events| - 1].atNs <= e.atNs then events + [e]
    else InsertByTime(events[..|events| - 1], e) + [events[|events| - 1]]
  }

  function SortByTime(events: seq<Event>): seq<Event> {
    if events == [] then [] else InsertByTime(SortByTime(events[..|events| - 1]), events[|events| - 1])
  }

  /** A role sees an event at its terminal, without the hop that would reveal the route's length. */
  function MetadataOf(e: Event, sequence: nat): Metadata {
    Metadata(sequence, e.kind, e.atNs, e.message, e.packet, None, e.details)
  }

  function RolesAt(roles: map<nat, nat>, e: Event): seq<nat> {
    if e.terminal.None? then []
    else SortedKeys(set role | role in roles && roles[role] == e.terminal.value)
  }

  function ProjectTo(seen: seq<nat>, heads: map<nat, nat>, ordinal: nat, e: Event): Projection {
    if seen == [] then Projection([], heads)
    else
      var next := Count(heads, seen[0]) + 1;
      var rest := ProjectTo(seen[1..], heads[seen[0] := next], ordinal, e);
      Projection([Projected(seen[0], ordinal, MetadataOf(e, next))] + rest.events, rest.heads)
  }

  function Prepare(roles: map<nat, nat>, heads: map<nat, nat>, events: seq<Event>, ordinal: nat): Projection
    decreases |events|
  {
    if events == [] then Projection([], heads)
    else
      var first := ProjectTo(RolesAt(roles, events[0]), heads, ordinal, events[0]);
      var rest := Prepare(roles, first.heads, events[1..], ordinal + 1);
      Projection(first.events + rest.events, rest.heads)
  }

  function Entries(events: seq<Projected>): seq<Entry> {
    if events == [] then [] else [Entry(events[0].role, events[0].event)] + Entries(events[1..])
  }

  /** Drop the oldest entries until the queue fits; each drop raises its role's floor. */
  function Evict(s: State): State
    decreases |s.history|
  {
    if |s.history| <= CAPACITY then s
    else
      var oldest := s.history[0];
      Evict(s.(history := s.history[1..], floors := s.floors[oldest.role := oldest.event.sequence]))
  }

  function Collect(s: State, drained: seq<Event>): State {
    s.(pending := SortByTime(s.pending + drained))
  }

  function Flush(s: State, roles: map<nat, nat>, drained: seq<Event>): State {
    var events := Collect(s, drained).pending;
    var prepared := Prepare(roles, s.heads, events, 0);
    Evict(State([], prepared.heads, s.history + Entries(prepared.events), s.floors))
  }

  datatype Query = Query(
    cursor: Option<nat>, limit: Option<nat>, message: Option<nat>, packet: Option<nat>, kind: Option<nat>)

  datatype Page = Page(events: seq<Metadata>, next: Option<nat>, truncated: bool)

  function Cursor(q: Query): nat {
    if q.cursor.Some? then q.cursor.value else 0
  }

  function Limit(q: Query): nat {
    Max(1, Min(500, if q.limit.Some? then q.limit.value else 100))
  }

  predicate Filtered(q: Query, e: Metadata) {
    && (q.message.Some? ==> e.message == q.message)
    && (q.packet.Some? ==> e.packet == q.packet)
    && (q.kind.Some? ==> e.kind == q.kind.value)
  }

  predicate Matches(q: Query, e: Metadata) {
    e.sequence > Cursor(q) && Filtered(q, e)
  }

  function Matching(history: seq<Entry>, role: nat, q: Query): seq<Metadata> {
    if history == [] then []
    else
      (if history[0].role == role && Matches(q, history[0].event) then [history[0].event] else [])
      + Matching(history[1..], role, q)
  }

  function List(s: State, role: nat, q: Query): Page {
    var matching := Matching(s.history, role, q);
    var events := matching[..Min(Limit(q), |matching|)];
    Page(
      events,
      if |matching| > Limit(q) then Some(events[|events| - 1].sequence) else None,
      role in s.floors && Cursor(q) < s.floors[role])
  }
}
