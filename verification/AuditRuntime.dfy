/** The audit runtime of one game, updated in place, proved against module Audit. */
module AuditRuntime {
  import opened Ordered
  import opened Audit
  import opened AuditSafety
  import AuditPaging

  class Runtime {
    var pending: seq<Event>
    var heads: map<nat, nat>
    var history: seq<Entry>
    var floors: map<nat, nat>

    /** The fields as one value. */
    function Model(): State
      reads this
    {
      State(pending, heads, history, floors)
    }

    constructor ()
      ensures Model() == State([], map[], [], map[])
    {
      pending, heads, history, floors := [], map[], [], map[];
    }

    /** Take over what the simulation captured: everything pending in time order, in the order of capture
        where times are equal. */
    method Collect(drained: seq<Event>)
      modifies this`pending
      ensures Model() == Audit.Collect(old(Model()), drained)
      ensures TimeOrdered(pending) && multiset(pending) == multiset(old(pending) + drained)
      ensures forall t :: AtTime(pending, t) == AtTime(old(pending) + drained, t)
    {
      pending := pending + drained;
      var sorted, i := [], 0;
      while i < |pending|
        invariant i <= |pending| && pending == old(pending) + drained && sorted == SortByTime(pending[..i])
      {
        assert pending[..i + 1][..i] == pending[..i];
        sorted := InsertStable(sorted, pending[i]);
        i := i + 1;
      }
      assert pending[..i] == pending;
      SortIsStable(pending);
      pending := sorted;
    }

    /** Past every event that is not later. */
    static method InsertStable(events: seq<Event>, e: Event) returns (r: seq<Event>)
      ensures r == InsertByTime(events, e)
    {
      var j := |events|;
      assert events[..j] == events;
      while j > 0 && events[j - 1].atNs > e.atNs
        invariant j <= |events|
        invariant InsertByTime(events, e) == InsertByTime(events[..j], e) + events[j..]
      {
        InsertBefore(events, j, e);
        j := j - 1;
      }
      InsertAfter(events[..j], e);
      r := events[..j] + [e] + events[j..];
    }

    /** Propose numbers for these events without publishing the new heads. */
    method Prepare(roles: map<nat, nat>, events: seq<Event>) returns (projected: seq<Projected>, proposed: map<nat, nat>)
      ensures Projection(projected, proposed) == Audit.Prepare(roles, heads, events, 0)
    {
      projected, proposed := [], heads;
      var ordinal := 0;
      while ordinal < |events|
        invariant ordinal <= |events|
        invariant Audit.Prepare(roles, heads, events, 0)
               == Prepend(projected, Audit.Prepare(roles, proposed, events[ordinal..], ordinal))
      {
        var e, more := events[ordinal], [];
        PrepareFrom(roles, proposed, events, ordinal);
        more, proposed := ProjectEvent(RolesAt(roles, e), proposed, ordinal, e);
        PrependTwice(projected, more, Audit.Prepare(roles, proposed, events[ordinal + 1..], ordinal + 1));
        projected := projected + more;
        ordinal := ordinal + 1;
      }
    }

    /** One event for every role that sees it. */
    static method ProjectEvent(seen: seq<nat>, before: map<nat, nat>, ordinal: nat, e: Event)
        returns (projected: seq<Projected>, proposed: map<nat, nat>)
      ensures Projection(projected, proposed) == ProjectTo(seen, before, ordinal, e)
    {
      projected, proposed := [], before;
      var i := 0;
      while i < |seen|
        invariant i <= |seen|
        invariant ProjectTo(seen, before, ordinal, e) == Prepend(projected, ProjectTo(seen[i..], proposed, ordinal, e))
      {
        assert seen[i..][0] == seen[i] && seen[i..][1..] == seen[i + 1..];
        var next := Count(proposed, seen[i]) + 1;
        proposed := proposed[seen[i] := next];
        var one := [Projected(seen[i], ordinal, MetadataOf(e, next))];
        PrependTwice(projected, one, ProjectTo(seen[i + 1..], proposed, ordinal, e));
        projected := projected + one;
        i := i + 1;
      }
    }

    method Publish(projected: seq<Projected>)
      modifies this`history
      ensures history == old(history) + Entries(projected)
    {
      var i := 0;
      assert projected[0..] == projected;
      while i < |projected|
        invariant i <= |projected|
        invariant history + Entries(projected[i..]) == old(history) + Entries(projected)
      {
        assert projected[i..][0] == projected[i] && projected[i..][1..] == projected[i + 1..];
        history := history + [Entry(projected[i].role, projected[i].event)];
        i := i + 1;
      }
    }

    method EvictOldest()
      modifies this`history, this`floors
      ensures Model() == Evict(old(Model()))
    {
      while |history| > CAPACITY
        invariant Evict(Model()) == Evict(old(Model()))
      {
        var oldest := history[0];
        history := history[1..];
        floors := floors[oldest.role := oldest.event.sequence];
      }
    }

    method FlushVolatile(roles: map<nat, nat>, drained: seq<Event>)
      modifies this
      ensures Model() == Flush(old(Model()), roles, drained)
    {
      ghost var start := Model();
      Collect(drained);
      var events := pending;
      pending := [];
      var projected, proposed := Prepare(roles, events);
      heads := proposed;
      Publish(projected);
      assert events == Audit.Collect(start, drained).pending;
      assert Model() == State([], proposed, start.history + Entries(projected), start.floors);
      EvictOldest();
    }

    /** The first matches, until the limit is reached or the queue ends. */
    static method TakeMatching(queue: seq<Entry>, role: nat, q: Query) returns (events: seq<Metadata>, i: nat)
      ensures i <= |queue| && |events| <= Limit(q) && (|events| < Limit(q) ==> i == |queue|)
      ensures Matching(queue, role, q) == events + Matching(queue[i..], role, q)
    {
      events, i := [], 0;
      assert queue[0..] == queue;
      while i < |queue| && |events| < Limit(q)
        invariant i <= |queue| && |events| <= Limit(q)
        invariant Matching(queue, role, q) == events + Matching(queue[i..], role, q)
      {
        MatchingFrom(queue, i, role, q);
        if Wanted(queue[i], role, q) {
          events := events + [queue[i].event];
        }
        i := i + 1;
      }
    }

    /** Whether a match is left from position start on. */
    static method HasMatch(queue: seq<Entry>, start: nat, role: nat, q: Query) returns (found: bool)
      requires start <= |queue|
      ensures found == (Matching(queue[start..], role, q) != [])
    {
      var i := start;
      while i < |queue| && !Wanted(queue[i], role, q)
        invariant start <= i <= |queue|
        invariant Matching(queue[start..], role, q) == Matching(queue[i..], role, q)
      {
        MatchingFrom(queue, i, role, q);
        i := i + 1;
      }
      MatchingFrom(queue, i, role, q);
      found := i < |queue|;
    }

    /** The volatile listing: flush what was captured, then answer from the queue. */
    method ListVolatile(roles: map<nat, nat>, drained: seq<Event>, role: nat, q: Query) returns (page: Page)
      modifies this
      ensures Model() == Flush(old(Model()), roles, drained)
      ensures page == List(Model(), role, q)
      ensures Gapless(old(Model()), role) ==> AuditPaging.Answers(Model(), role, q, page)
    {
      FlushVolatile(roles, drained);
      ghost var before := old(Model());
      if Gapless(before, role) {
        FlushEvolves(before, roles, drained, role);
        AuditPaging.PageAnswers(Model(), role, q);
      }
      var events, i := TakeMatching(history, role, q);
      var more := HasMatch(history, i, role, q);
      TakenIsPage(Matching(history, role, q), events, Matching(history[i..], role, q), Limit(q));
      page := Page(events, if more then Some(events[|events| - 1].sequence) else None,
                   role in floors && Cursor(q) < floors[role]);
    }
  }

  lemma TakenIsPage(matching: seq<Metadata>, events: seq<Metadata>, rest: seq<Metadata>, limit: nat)
    requires matching == events + rest && |events| <= limit && (|events| < limit ==> rest == [])
    ensures events == matching[..Min(limit, |matching|)] && (rest != [] <==> |matching| > limit)
  {
  }

  predicate Wanted(entry: Entry, role: nat, q: Query) {
    entry.role == role && Matches(q, entry.event)
  }

  lemma PrepareFrom(roles: map<nat, nat>, heads: map<nat, nat>, events: seq<Event>, i: nat)
    requires i < |events|
    ensures var first := ProjectTo(RolesAt(roles, events[i]), heads, i, events[i]);
            Audit.Prepare(roles, heads, events[i..], i)
            == Prepend(first.events, Audit.Prepare(roles, first.heads, events[i + 1..], i + 1))
  {
    assert events[i..][0] == events[i] && events[i..][1..] == events[i + 1..];
  }

  lemma InsertBefore(events: seq<Event>, j: nat, e: Event)
    requires 0 < j <= |events| && events[j - 1].atNs > e.atNs
    ensures InsertByTime(events[..j], e) + events[j..] == InsertByTime(events[..j - 1], e) + events[j - 1..]
  {
    InsertUnfolds(events[..j], e);
    assert events[..j][..j - 1] == events[..j - 1] && events[..j][j - 1] == events[j - 1];
    Shifted(InsertByTime(events[..j - 1], e), events[j - 1], events[j..]);
    assert [events[j - 1]] + events[j..] == events[j - 1..];
  }

  lemma InsertUnfolds(events: seq<Event>, e: Event)
    requires events != [] && events[|events| - 1].atNs > e.atNs
    ensures InsertByTime(events, e) == InsertByTime(events[..|events| - 1], e) + [events[|events| - 1]]
  {
  }

  lemma Shifted(a: seq<Event>, x: Event, b: seq<Event>)
    ensures a + [x] + b == a + ([x] + b)
  {
  }

  lemma InsertAfter(events: seq<Event>, e: Event)
    requires events == [] || events[|events| - 1].atNs <= e.atNs
    ensures InsertByTime(events, e) == events + [e]
  {
  }

  lemma MatchingFrom(history: seq<Entry>, i: nat, role: nat, q: Query)
    requires i <= |history|
    ensures i == |history| ==> Matching(history[i..], role, q) == []
    ensures i < |history| ==>
              Matching(history[i..], role, q)
              == (if Wanted(history[i], role, q) then [history[i].event] else []) + Matching(history[i + 1..], role, q)
  {
    if i < |history| {
      assert history[i..][0] == history[i] && history[i..][1..] == history[i + 1..];
    }
  }

  function Prepend(events: seq<Projected>, p: Projection): Projection {
    Projection(events + p.events, p.heads)
  }

  lemma PrependTwice(a: seq<Projected>, b: seq<Projected>, p: Projection)
    ensures Prepend(a, Prepend(b, p)) == Prepend(a + b, p)
  {}
}
