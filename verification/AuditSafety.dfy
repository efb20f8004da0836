/** Numbering, eviction and capture order of the audit log, over any sequence of flushes. */
module AuditSafety {
  import opened Ordered
  import opened Audit

  // ---- The stable sort of captured events -------------------------------------------------

  ghost predicate TimeOrdered(events: seq<Event>) {
    forall i, j :: 0 <= i < j < |events| ==> events[i].atNs <= events[j].atNs
  }

  function AtTime(events: seq<Event>, t: nat): seq<Event> {
    if events == [] then []
    else AtTime(events[..|events| - 1], t) + (if events[|events| - 1].atNs == t then [events[|events| - 1]] else [])
  }

  lemma {:induction false} InsertKeepsAll(events: seq<Event>, e: Event)
    ensures multiset(InsertByTime(events, e)) == multiset(events) + multiset{e}
  {
    if !(events == [] || events[|events| - 1].atNs <= e.atNs) {
      InsertKeepsAll(events[..|events| - 1], e);
      assert events == events[..|events| - 1] + [events[|events| - 1]];
    }
  }

  lemma {:induction false} InsertKeepsOrder(events: seq<Event>, e: Event)
    requires TimeOrdered(events)
    ensures TimeOrdered(InsertByTime(events, e))
  {
    if !(events == [] || events[|events| - 1].atNs <= e.atNs) {
      var front, last := events[..|events| - 1], events[|events| - 1];
      InsertKeepsOrder(front, e);
      InsertKeepsAll(front, e);
      var r := InsertByTime(front, e);
      forall i | 0 <= i < |r| ensures r[i].atNs <= last.atNs {
        assert r[i] in multiset(r);
        assert r[i] in front || r[i] == e;
      }
    }
  }

  lemma {:induction false} InsertIsStable(events: seq<Event>, e: Event, t: nat)
    requires TimeOrdered(events)
    ensures AtTime(InsertByTime(events, e), t) == AtTime(events, t) + (if e.atNs == t then [e] else [])
  {
    if events == [] || events[|events| - 1].atNs <= e.atNs {
      assert (events + [e])[..|events|] == events;
    } else {
      var front, last := events[..|events| - 1], events[|events| - 1];
      InsertIsStable(front, e, t);
      var r := InsertByTime(front, e);
      assert (r + [last])[..|r|] == r;
      if e.atNs == t {
        assert AtTime(events, t) == AtTime(front, t);
      }
    }
  }

  /** Collecting keeps every event, orders them by time, and never reorders equal times. */
  lemma {:induction false} SortIsStable(events: seq<Event>)
    ensures var r := SortByTime(events);
            TimeOrdered(r) && multiset(r) == multiset(events) && forall t :: AtTime(r, t) == AtTime(events, t)
  {
    if events != [] {
      var front, last := events[..|events| - 1], events[|events| - 1];
      SortIsStable(front);
      InsertKeepsAll(SortByTime(front), last);
      InsertKeepsOrder(SortByTime(front), last);
      assert events == front + [last];
      forall t ensures AtTime(SortByTime(events), t) == AtTime(events, t) {
        InsertIsStable(SortByTime(front), last, t);
      }
    }
  }

  lemma {:induction false} AtTimeAll(events: seq<Event>, t: nat)
    ensures forall e :: e in AtTime(events, t) ==> e.atNs == t && e in events
    ensures forall e :: e in events && e.atNs == t ==> e in AtTime(events, t)
  {
    if events != [] {
      AtTimeAll(events[..|events| - 1], t);
      assert events == events[..|events| - 1] + [events[|events| - 1]];
    }
  }

  lemma LastOfTime(events: seq<Event>)
    requires events != []
    ensures var last := events[|events| - 1]; var same := AtTime(events, last.atNs);
            same != [] && same[|same| - 1] == last
            && AtTime(events[..|events| - 1], last.atNs) == same[..|same| - 1]
            && forall t :: t != last.atNs ==> AtTime(events[..|events| - 1], t) == AtTime(events, t)
  {
    var last := events[|events| - 1];
    assert AtTime(events, last.atNs) == AtTime(events[..|events| - 1], last.atNs) + [last];
  }

  ghost predicate SameAtEveryTime(a: seq<Event>, b: seq<Event>) {
    forall t :: AtTime(a, t) == AtTime(b, t)
  }

  lemma LastNotLater(a: seq<Event>, b: seq<Event>)
    requires TimeOrdered(b) && a != [] && SameAtEveryTime(a, b)
    ensures b != [] && a[|a| - 1].atNs <= b[|b| - 1].atNs
  {
    var x := a[|a| - 1];
    LastOfTime(a);
    AtTimeAll(b, x.atNs);
    assert x in AtTime(b, x.atNs);
    assert x in b;
  }

  lemma SameLast(a: seq<Event>, b: seq<Event>)
    requires TimeOrdered(a) && TimeOrdered(b) && a != [] && SameAtEveryTime(a, b)
    ensures b != [] && a[|a| - 1] == b[|b| - 1]
    ensures SameAtEveryTime(a[..|a| - 1], b[..|b| - 1])
  {
    LastNotLater(a, b);
    LastNotLater(b, a);
    LastOfTime(a);
    LastOfTime(b);
    var t := a[|a| - 1].atNs;
    assert AtTime(a, t) == AtTime(b, t);
    var frontA, frontB := a[..|a| - 1], b[..|b| - 1];
    forall u ensures AtTime(frontA, u) == AtTime(frontB, u) {
      assert AtTime(a, u) == AtTime(b, u);
    }
  }

  /** The order is determined: any other time-ordered list that keeps capture order among equal
      times is the same list, whatever algorithm sorted it. */
  lemma {:induction false} StableOrderUnique(a: seq<Event>, b: seq<Event>)
    requires TimeOrdered(a) && TimeOrdered(b) && SameAtEveryTime(a, b)
    ensures a == b
    decreases |a|
  {
    if a == [] {
      if b != [] {
        LastNotLater(b, a);
      }
    } else {
      SameLast(a, b);
      var frontA, frontB := a[..|a| - 1], b[..|b| - 1];
      StableOrderUnique(frontA, frontB);
      assert a == frontA + [a[|a| - 1]] && b == frontB + [b[|b| - 1]];
    }
  }

  // ---- Projection -------------------------------------------------------------------------

  /** Preparing a ++ b is preparing a and then b from a's heads, with b's ordinals shifted. */
  lemma {:induction false} PrepareSplits(roles: map<nat, nat>, heads: map<nat, nat>, a: seq<Event>, b: seq<Event>, ordinal: nat)
    ensures var first := Prepare(roles, heads, a, ordinal);
            var second := Prepare(roles, first.heads, b, ordinal + |a|);
            Prepare(roles, heads, a + b, ordinal) == Projection(first.events + second.events, second.heads)
    decreases |a|
  {
    if a == [] {
      assert a + b == b;
    } else {
      assert (a + b)[0] == a[0] && (a + b)[1..] == a[1..] + b;
      var one := ProjectTo(RolesAt(roles, a[0]), heads, ordinal, a[0]);
      PrepareSplits(roles, one.heads, a[1..], b, ordinal + 1);
      var rest := Prepare(roles, one.heads, a[1..], ordinal + 1);
      var second := Prepare(roles, rest.heads, b, ordinal + |a|);
      assert one.events + (rest.events + second.events) == (one.events + rest.events) + second.events;
    }
  }

  function OfRole(history: seq<Entry>, role: nat): seq<Metadata> {
    if history == [] then []
    else (if history[0].role == role then [history[0].event] else []) + OfRole(history[1..], role)
  }

  lemma {:induction false} OfRoleConcat(a: seq<Entry>, b: seq<Entry>, role: nat)
    ensures OfRole(a + b, role) == OfRole(a, role) + OfRole(b, role)
    decreases |a|
  {
    if a == [] {
      assert a + b == b;
    } else {
      assert (a + b)[0] == a[0] && (a + b)[1..] == a[1..] + b;
      OfRoleConcat(a[1..], b, role);
      var head := if a[0].role == role then [a[0].event] else [];
      assert OfRole(a + b, role) == head + OfRole(a[1..] + b, role);
      assert head + (OfRole(a[1..], role) + OfRole(b, role)) == (head + OfRole(a[1..], role)) + OfRole(b, role);
    }
  }

  lemma {:induction false} EntriesConcat(a: seq<Projected>, b: seq<Projected>)
    ensures Entries(a + b) == Entries(a) + Entries(b)
    decreases |a|
  {
    if a == [] {
      assert a + b == b;
    } else {
      assert (a + b)[1..] == a[1..] + b;
      EntriesConcat(a[1..], b);
    }
  }

  /** The metadata of these events numbered upward from sequence. */
  function Numbered(events: seq<Event>, sequence: nat): seq<Metadata> {
    if events == [] then [] else [MetadataOf(events[0], sequence)] + Numbered(events[1..], sequence + 1)
  }

  function AtTerminal(events: seq<Event>, terminal: nat): seq<Event> {
    if events == [] then []
    else (if events[0].terminal == Some(terminal) then [events[0]] else []) + AtTerminal(events[1..], terminal)
  }

  /** The captured events a role may see: those observed at its own terminal. */
  function SeenBy(roles: map<nat, nat>, role: nat, events: seq<Event>): seq<Event> {
    if role in roles then AtTerminal(events, roles[role]) else []
  }

  lemma {:induction false} ProjectToRole(seen: seq<nat>, heads: map<nat, nat>, ordinal: nat, e: Event, role: nat)
    requires Ascending(seen)
    ensures var p := ProjectTo(seen, heads, ordinal, e);
            if role in seen
            then OfRole(Entries(p.events), role) == [MetadataOf(e, Count(heads, role) + 1)]
                 && Count(p.heads, role) == Count(heads, role) + 1
            else OfRole(Entries(p.events), role) == [] && Count(p.heads, role) == Count(heads, role)
    decreases |seen|
  {
    if seen != [] {
      var next := Count(heads, seen[0]) + 1;
      ProjectToRole(seen[1..], heads[seen[0] := next], ordinal, e, role);
      var rest := ProjectTo(seen[1..], heads[seen[0] := next], ordinal, e);
      var p := ProjectTo(seen, heads, ordinal, e);
      assert p.events[1..] == rest.events;
      assert Entries(p.events)[1..] == Entries(rest.events);
      assert role == seen[0] ==> role !in seen[1..];
      assert role in seen <==> role == seen[0] || role in seen[1..];
    }
  }

  lemma {:induction false} NumberedConcat(a: seq<Event>, b: seq<Event>, sequence: nat)
    ensures Numbered(a + b, sequence) == Numbered(a, sequence) + Numbered(b, sequence + |a|)
    decreases |a|
  {
    if a == [] {
      assert a + b == b;
    } else {
      assert (a + b)[1..] == a[1..] + b;
      NumberedConcat(a[1..], b, sequence + 1);
    }
  }

  /** What each role is given by a projection: exactly the events at its terminal, in capture order,
      numbered from its head upward; its new head counts them; other roles are untouched. */
  lemma {:induction false} PreparedForRole(roles: map<nat, nat>, heads: map<nat, nat>, events: seq<Event>, ordinal: nat, role: nat)
    ensures var p := Prepare(roles, heads, events, ordinal);
            && OfRole(Entries(p.events), role) == Numbered(SeenBy(roles, role, events), Count(heads, role) + 1)
            && Count(p.heads, role) == Count(heads, role) + |SeenBy(roles, role, events)|
    decreases |events|
  {
    if events != [] {
      var seen := RolesAt(roles, events[0]);
      var one := ProjectTo(seen, heads, ordinal, events[0]);
      var rest := Prepare(roles, one.heads, events[1..], ordinal + 1);
      assert role in seen <==> role in roles && events[0].terminal == Some(roles[role]);
      ProjectToRole(seen, heads, ordinal, events[0], role);
      if role in seen {
        assert SeenBy(roles, role, events) == [events[0]] + SeenBy(roles, role, events[1..]);
      } else {
        assert SeenBy(roles, role, events) == SeenBy(roles, role, events[1..]);
      }
      PreparedForRole(roles, one.heads, events[1..], ordinal + 1, role);
      EntriesConcat(one.events, rest.events);
      OfRoleConcat(Entries(one.events), Entries(rest.events), role);
    }
  }

  /** What is kept for a role beside what was ever numbered for it. */
  ghost predicate Contiguous(kept: seq<Metadata>, floor: nat, head: nat) {
    floor + |kept| == head && forall i :: 0 <= i < |kept| ==> kept[i].sequence == floor + 1 + i
  }

  ghost function Nth(kept: seq<Metadata>, floor: nat, n: nat): Metadata
    requires floor < n <= floor + |kept|
  {
    kept[n - floor - 1]
  }

  ghost predicate Gapless(s: State, role: nat) {
    Contiguous(OfRole(s.history, role), Count(s.floors, role), Count(s.heads, role))
  }

  ghost predicate Inv(s: State) {
    && (forall role :: Gapless(s, role))
    && |s.history| <= CAPACITY
  }

  /** The retained event of a role with this sequence number. */
  ghost function EventAt(s: State, role: nat, sequence: nat): Metadata
    requires Gapless(s, role) && Count(s.floors, role) < sequence <= Count(s.heads, role)
  {
    Nth(OfRole(s.history, role), Count(s.floors, role), sequence)
  }

  /** A later state of the log: numbers only grow, floors only rise, what is kept is unchanged. */
  ghost predicate Evolves(s: State, t: State, role: nat) {
    && Gapless(s, role) && Gapless(t, role)
    && Count(s.floors, role) <= Count(t.floors, role)
    && Count(s.heads, role) <= Count(t.heads, role)
    && (forall n :: Count(t.floors, role) < n <= Count(s.heads, role) ==> EventAt(t, role, n) == EventAt(s, role, n))
  }

  lemma EvolvesTransitive(s: State, t: State, u: State, role: nat)
    requires Evolves(s, t, role) && Evolves(t, u, role)
    ensures Evolves(s, u, role)
  {}

  lemma DropKeepsContiguous(kept: seq<Metadata>, rest: seq<Metadata>, floor: nat, head: nat, dropped: nat)
    requires Contiguous(kept, floor, head) && dropped <= |kept| && rest == kept[dropped..]
    ensures Contiguous(rest, floor + dropped, head)
    ensures forall n :: floor + dropped < n <= head ==> Nth(rest, floor + dropped, n) == Nth(kept, floor, n)
  {}

  lemma DropEvolves(s: State, t: State, role: nat, dropped: nat)
    requires Gapless(s, role) && dropped <= |OfRole(s.history, role)|
    requires OfRole(t.history, role) == OfRole(s.history, role)[dropped..]
    requires Count(t.floors, role) == Count(s.floors, role) + dropped && Count(t.heads, role) == Count(s.heads, role)
    ensures Evolves(s, t, role)
  {
    var floor, head := Count(s.floors, role), Count(s.heads, role);
    DropKeepsContiguous(OfRole(s.history, role), OfRole(t.history, role), floor, head, dropped);
    assert Gapless(t, role);
    forall n | floor + dropped < n <= head ensures EventAt(t, role, n) == EventAt(s, role, n) {
      assert Nth(OfRole(t.history, role), floor + dropped, n) == Nth(OfRole(s.history, role), floor, n);
    }
  }

  lemma EvictOne(s: State, t: State, role: nat)
    requires Gapless(s, role) && s.history != []
    requires t == s.(history := s.history[1..], floors := s.floors[s.history[0].role := s.history[0].event.sequence])
    ensures Evolves(s, t, role)
  {
    var before, after := OfRole(s.history, role), OfRole(t.history, role);
    if s.history[0].role == role {
      assert before == [s.history[0].event] + after;
      assert before[0].sequence == Count(s.floors, role) + 1;
      DropEvolves(s, t, role, 1);
    } else {
      assert after == before;
      DropEvolves(s, t, role, 0);
    }
  }

  lemma {:induction false} EvictEvolves(s: State, role: nat)
    requires Gapless(s, role)
    ensures Evolves(s, Evict(s), role) && |Evict(s).history| <= CAPACITY
    ensures Evict(s).heads == s.heads
    decreases |s.history|
  {
    if |s.history| > CAPACITY {
      var oldest := s.history[0];
      var t := s.(history := s.history[1..], floors := s.floors[oldest.role := oldest.event.sequence]);
      EvictOne(s, t, role);
      EvictEvolves(t, role);
      EvolvesTransitive(s, t, Evict(t), role);
    }
  }

  lemma {:induction false} NumberedSequences(events: seq<Event>, sequence: nat)
    ensures |Numbered(events, sequence)| == |events|
    ensures forall i :: 0 <= i < |events| ==> Numbered(events, sequence)[i] == MetadataOf(events[i], sequence + i)
  {
    if events != [] {
      NumberedSequences(events[1..], sequence + 1);
    }
  }

  /** Numbering these events for every role that sees them, before anything is evicted. */
  ghost function Appended(s: State, roles: map<nat, nat>, events: seq<Event>): State {
    var prepared := Prepare(roles, s.heads, events, 0);
    State([], prepared.heads, s.history + Entries(prepared.events), s.floors)
  }

  lemma ExtendKeepsContiguous(kept: seq<Metadata>, added: seq<Event>, floor: nat, head: nat)
    requires Contiguous(kept, floor, head)
    ensures var all := kept + Numbered(added, head + 1);
            && Contiguous(all, floor, head + |added|)
            && (forall n :: floor < n <= head ==> Nth(all, floor, n) == Nth(kept, floor, n))
            && (forall n :: head < n <= head + |added| ==> Nth(all, floor, n) == MetadataOf(added[n - head - 1], n))
  {
    var numbered := Numbered(added, head + 1);
    NumberedSequences(added, head + 1);
    ConcatContiguous(kept, numbered, floor, head);
    forall n | head < n <= head + |added|
      ensures Nth(kept + numbered, floor, n) == MetadataOf(added[n - head - 1], n)
    {
      assert Nth(numbered, head, n) == numbered[n - head - 1];
    }
  }

  lemma ConcatContiguous(kept: seq<Metadata>, more: seq<Metadata>, floor: nat, head: nat)
    requires Contiguous(kept, floor, head) && Contiguous(more, head, head + |more|)
    ensures Contiguous(kept + more, floor, head + |more|)
    ensures forall n :: floor < n <= head ==> Nth(kept + more, floor, n) == Nth(kept, floor, n)
    ensures forall n :: head < n <= head + |more| ==> Nth(kept + more, floor, n) == Nth(more, head, n)
  {
  }

  lemma GrowEvolves(s: State, t: State, role: nat, added: seq<Event>)
    requires Gapless(s, role)
    requires OfRole(t.history, role) == OfRole(s.history, role) + Numbered(added, Count(s.heads, role) + 1)
    requires Count(t.floors, role) == Count(s.floors, role) && Count(t.heads, role) == Count(s.heads, role) + |added|
    ensures Evolves(s, t, role)
    ensures forall n :: Count(s.heads, role) < n <= Count(t.heads, role) ==>
              EventAt(t, role, n) == MetadataOf(added[n - Count(s.heads, role) - 1], n)
  {
    ExtendKeepsContiguous(OfRole(s.history, role), added, Count(s.floors, role), Count(s.heads, role));
  }

  lemma AppendEvolves(s: State, roles: map<nat, nat>, events: seq<Event>, role: nat)
    requires Gapless(s, role)
    ensures var t, head, added := Appended(s, roles, events), Count(s.heads, role), SeenBy(roles, role, events);
            && Evolves(s, t, role)
            && Count(t.heads, role) == head + |added|
            && forall n :: head < n <= head + |added| ==> EventAt(t, role, n) == MetadataOf(added[n - head - 1], n)
  {
    var prepared := Prepare(roles, s.heads, events, 0);
    PreparedForRole(roles, s.heads, events, 0, role);
    OfRoleConcat(s.history, Entries(prepared.events), role);
    GrowEvolves(s, Appended(s, roles, events), role, SeenBy(roles, role, events));
  }

  /** A flush gives each role the captured events of its own terminal, in stable time order, as the
      next numbers after its head; what it evicts of a role is always the oldest it still had. */
  lemma FlushEvolves(s: State, roles: map<nat, nat>, drained: seq<Event>, role: nat)
    requires Gapless(s, role)
    ensures var t, head := Flush(s, roles, drained), Count(s.heads, role);
            var added := SeenBy(roles, role, SortByTime(s.pending + drained));
            && Evolves(s, t, role) && |t.history| <= CAPACITY && t.pending == []
            && Count(t.heads, role) == head + |added|
            && forall n :: head < n <= head + |added| && Count(t.floors, role) < n ==>
                 EventAt(t, role, n) == MetadataOf(added[n - head - 1], n)
  {
    var events := SortByTime(s.pending + drained);
    var a := Appended(s, roles, events);
    assert Flush(s, roles, drained) == Evict(a);
    AppendEvolves(s, roles, events, role);
    EvictEvolves(a, role);
    EvictKeepsPending(a);
    EvolvesTransitive(s, a, Evict(a), role);
  }

  lemma {:induction false} EvictKeepsPending(s: State)
    ensures Evict(s).pending == s.pending
    decreases |s.history|
  {
    if |s.history| > CAPACITY {
      var oldest := s.history[0];
      EvictKeepsPending(s.(history := s.history[1..], floors := s.floors[oldest.role := oldest.event.sequence]));
    }
  }

  /** What a role is shown of an event at its terminal: everything but the hop. */
  ghost predicate Shows(m: Metadata, e: Event, sequence: nat) {
    && m.sequence == sequence && m.kind == e.kind && m.atNs == e.atNs
    && m.message == e.message && m.packet == e.packet && m.details == e.details && m.hop == None
  }

  /** Each numbered event is shown as it was captured, but for its hop. */
  lemma FlushShows(s: State, roles: map<nat, nat>, drained: seq<Event>, role: nat, n: nat)
    requires Gapless(s, role)
    requires var t := Flush(s, roles, drained);
             Count(s.heads, role) < n <= Count(t.heads, role) && Count(t.floors, role) < n
    ensures var added := SeenBy(roles, role, SortByTime(s.pending + drained));
            && Gapless(Flush(s, roles, drained), role) && n - Count(s.heads, role) <= |added|
            && Shows(EventAt(Flush(s, roles, drained), role, n), added[n - Count(s.heads, role) - 1], n)
  {
    FlushEvolves(s, roles, drained, role);
  }

  /** These are the event for exactly the roles at its terminal, in their order, each under its next number. */
  ghost predicate GoesToItsRoles(shown: seq<Projected>, roles: map<nat, nat>, heads: map<nat, nat>, e: Event, ordinal: nat) {
    && (forall i, j :: 0 <= i < j < |shown| ==> shown[i].role < shown[j].role)
    && (forall i :: 0 <= i < |shown| ==>
          shown[i].ordinal == ordinal && shown[i].role in roles && e.terminal == Some(roles[shown[i].role])
          && Shows(shown[i].event, e, Count(heads, shown[i].role) + 1))
    && (forall role :: role in roles && e.terminal == Some(roles[role]) ==>
          exists i :: 0 <= i < |shown| && shown[i].role == role)
  }

  lemma InOrderGoes(seen: seq<nat>, shown: seq<Projected>, roles: map<nat, nat>, heads: map<nat, nat>, e: Event, ordinal: nat)
    requires Ascending(seen) && |shown| == |seen|
    requires forall role :: role in seen <==> role in roles && e.terminal == Some(roles[role])
    requires forall i :: 0 <= i < |seen| ==>
      shown[i].role == seen[i] && shown[i].ordinal == ordinal && Shows(shown[i].event, e, Count(heads, seen[i]) + 1)
    ensures GoesToItsRoles(shown, roles, heads, e, ordinal)
  {
    forall i | 0 <= i < |shown| ensures shown[i].role in roles && e.terminal == Some(roles[shown[i].role]) {
      assert seen[i] in seen;
    }
    forall role | role in roles && e.terminal == Some(roles[role]) ensures exists i :: 0 <= i < |shown| && shown[i].role == role {
      var i :| 0 <= i < |seen| && seen[i] == role;
      assert shown[i].role == role;
    }
  }

  /** With the splitting of a preparation this determines any. */
  lemma EventGoesToItsRoles(roles: map<nat, nat>, heads: map<nat, nat>, e: Event, ordinal: nat)
    ensures GoesToItsRoles(Prepare(roles, heads, [e], ordinal).events, roles, heads, e, ordinal)
  {
    var seen := RolesAt(roles, e);
    OnePrepared(roles, heads, e, ordinal);
    ProjectedInOrder(seen, heads, ordinal, e);
    InOrderGoes(seen, ProjectTo(seen, heads, ordinal, e).events, roles, heads, e, ordinal);
  }

  lemma OnePrepared(roles: map<nat, nat>, heads: map<nat, nat>, e: Event, ordinal: nat)
    ensures Prepare(roles, heads, [e], ordinal).events == ProjectTo(RolesAt(roles, e), heads, ordinal, e).events
    ensures forall role :: role in RolesAt(roles, e) <==> role in roles && e.terminal == Some(roles[role])
  {
    var first := ProjectTo(RolesAt(roles, e), heads, ordinal, e);
    assert [e][1..] == [] && Prepare(roles, first.heads, [], ordinal + 1).events == [];
  }

  lemma {:induction false} ProjectedInOrder(seen: seq<nat>, heads: map<nat, nat>, ordinal: nat, e: Event)
    requires Ascending(seen)
    ensures var shown := ProjectTo(seen, heads, ordinal, e).events;
            && |shown| == |seen|
            && (forall i :: 0 <= i < |seen| ==>
                  shown[i].role == seen[i] && shown[i].ordinal == ordinal
                  && Shows(shown[i].event, e, Count(heads, seen[i]) + 1))
    decreases |seen|
  {
    if seen != [] {
      ProjectedInOrder(seen[1..], heads[seen[0] := Count(heads, seen[0]) + 1], ordinal, e);
      assert forall i :: 0 < i < |seen| ==> seen[i] == seen[1..][i - 1] && seen[i] != seen[0];
    }
  }

  /** Eviction drops no more than it has to, and the oldest entries of the whole queue. */
  lemma {:induction false} EvictKeepsLatest(s: State)
    ensures Evict(s).history == Latest(s.history, CAPACITY) && Evict(s).heads == s.heads
    decreases |s.history|
  {
    if |s.history| > CAPACITY {
      var oldest := s.history[0];
      EvictKeepsLatest(s.(history := s.history[1..], floors := s.floors[oldest.role := oldest.event.sequence]));
    }
  }

  /** One flush: the roles' terminals at that time, and what the simulation had captured. */
  datatype Boundary = Boundary(roles: map<nat, nat>, drained: seq<Event>)

  function FlushAll(s: State, boundaries: seq<Boundary>): State
    decreases |boundaries|
  {
    if boundaries == [] then s
    else FlushAll(Flush(s, boundaries[0].roles, boundaries[0].drained), boundaries[1..])
  }

  lemma {:induction false} FlushesEvolve(s: State, boundaries: seq<Boundary>, role: nat)
    requires Gapless(s, role)
    ensures Evolves(s, FlushAll(s, boundaries), role)
    decreases |boundaries|
  {
    if boundaries != [] {
      var t := Flush(s, boundaries[0].roles, boundaries[0].drained);
      FlushEvolves(s, boundaries[0].roles, boundaries[0].drained, role);
      FlushesEvolve(t, boundaries[1..], role);
      EvolvesTransitive(s, t, FlushAll(t, boundaries[1..]), role);
    }
  }

  lemma {:induction false} FlushesFit(s: State, boundaries: seq<Boundary>)
    requires Inv(s)
    ensures Inv(FlushAll(s, boundaries))
    decreases |boundaries|
  {
    if boundaries != [] {
      var t := Flush(s, boundaries[0].roles, boundaries[0].drained);
      forall role ensures Gapless(t, role) && |t.history| <= CAPACITY {
        assert Gapless(s, role);
        FlushEvolves(s, boundaries[0].roles, boundaries[0].drained, role);
      }
      assert Gapless(s, 0);
      FlushEvolves(s, boundaries[0].roles, boundaries[0].drained, 0);
      FlushesFit(t, boundaries[1..]);
    }
  }

  /** After any sequence of flushes from an empty log, over any changes of terminals between them,
      each role's retained events are exactly floor + 1 through head, in order and without gaps, and
      the one queue all roles share never exceeds its capacity. */
  lemma GaplessAfterAnyFlushes(s: State, boundaries: seq<Boundary>, role: nat)
    requires s.heads == map[] && s.history == [] && s.floors == map[]
    ensures var t := FlushAll(s, boundaries); var kept := OfRole(t.history, role);
            && |t.history| <= CAPACITY
            && Count(t.heads, role) - Count(t.floors, role) == |kept|
            && forall i :: 0 <= i < |kept| ==> kept[i].sequence == Count(t.floors, role) + 1 + i
  {
    FlushesFit(s, boundaries);
    assert Gapless(FlushAll(s, boundaries), role);
  }
}
