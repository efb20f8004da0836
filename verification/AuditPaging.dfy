/** Filtered cursor pagination over the audit log, while the log keeps being flushed. */
module AuditPaging {
  import opened Ordered
  import opened Audit
  import opened AuditSafety

  ghost predicate Increasing(events: seq<Metadata>) {
    forall i, j :: 0 <= i < j < |events| ==> events[i].sequence < events[j].sequence
  }

  function Select(events: seq<Metadata>, q: Query): seq<Metadata> {
    if events == [] then []
    else (if Matches(q, events[0]) then [events[0]] else []) + Select(events[1..], q)
  }

  lemma {:induction false} MatchingSelects(history: seq<Entry>, role: nat, q: Query)
    ensures Matching(history, role, q) == Select(OfRole(history, role), q)
  {
    if history != [] {
      MatchingSelects(history[1..], role, q);
      if history[0].role == role {
        assert OfRole(history, role)[1..] == OfRole(history[1..], role);
      } else {
        assert OfRole(history, role) == OfRole(history[1..], role);
      }
    }
  }

  lemma {:induction false} SelectHas(events: seq<Metadata>, q: Query)
    ensures forall e :: e in Select(events, q) <==> e in events && Matches(q, e)
  {
    if events != [] {
      SelectHas(events[1..], q);
      assert events == [events[0]] + events[1..];
    }
  }

  lemma {:induction false} SelectIncreasing(events: seq<Metadata>, q: Query)
    requires Increasing(events)
    ensures Increasing(Select(events, q))
  {
    if events != [] {
      SelectIncreasing(events[1..], q);
      SelectHas(events[1..], q);
      var rest := Select(events[1..], q);
      forall i | 0 <= i < |rest| ensures events[0].sequence < rest[i].sequence {
        assert rest[i] in events[1..];
      }
    }
  }

  function Above(events: seq<Metadata>, c: nat): seq<Metadata> {
    if events == [] then [] else (if events[0].sequence > c then [events[0]] else []) + Above(events[1..], c)
  }

  /** Raising the cursor to c keeps just the matches numbered above c. */
  lemma {:induction false} RaiseCursor(events: seq<Metadata>, q: Query, c: nat)
    requires c >= Cursor(q)
    ensures Select(events, q.(cursor := Some(c))) == Above(Select(events, q), c)
  {
    if events != [] {
      RaiseCursor(events[1..], q, c);
      if Matches(q, events[0]) {
        assert Select(events, q)[1..] == Select(events[1..], q);
      } else {
        assert Select(events, q) == Select(events[1..], q);
      }
    }
  }

  lemma {:induction false} AboveIsSuffix(events: seq<Metadata>, c: nat, k: nat)
    requires k <= |events|
    requires forall i :: 0 <= i < |events| ==> (events[i].sequence > c <==> i >= k)
    ensures Above(events, c) == events[k..]
  {
    if events != [] {
      assert events[0].sequence > c <==> k == 0;
      AboveIsSuffix(events[1..], c, if k == 0 then 0 else k - 1);
    }
  }

  /** What one page says of a gapless log: a first slice of the matches, and a cursor from which the
      remaining matches, if any, are exactly those not yet returned. */
  lemma {:induction false} PageSplits(s: State, role: nat, q: Query)
    requires Gapless(s, role)
    ensures var page, matches := List(s, role, q), Select(OfRole(s.history, role), q);
            && Increasing(matches)
            && page.events <= matches && 1 <= Limit(q) <= 500 && |page.events| <= Limit(q)
            && (page.next.None? ==> page.events == matches)
            && (page.next.Some? ==>
                  page.events != [] && page.next.value == page.events[|page.events| - 1].sequence
                  && page.next.value > Cursor(q)
                  && Select(OfRole(s.history, role), q.(cursor := page.next)) == matches[|page.events|..])
  {
    MatchingSelects(s.history, role, q);
    var kept := OfRole(s.history, role);
    assert Increasing(kept);
    SelectIncreasing(kept, q);
    var page, matches := List(s, role, q), Select(kept, q);
    if page.next.Some? {
      var k := |page.events|;
      SelectHas(kept, q);
      assert matches[k - 1] in matches;
      RaiseCursor(kept, q, page.next.value);
      AboveIsSuffix(matches, page.next.value, k);
    }
  }

  // ---- What a page answers --------------------------------------------------------------------------

  /** The event is one the query asks for. */
  ghost predicate Asked(q: Query, e: Metadata) {
    && e.sequence > (if q.cursor.Some? then q.cursor.value else 0)
    && (q.message.Some? ==> e.message == q.message)
    && (q.packet.Some? ==> e.packet == q.packet)
    && (q.kind.Some? ==> e.kind == q.kind.value)
  }

  /** The page holds, in ascending order, exactly the events asked for that are retained for the role, up to its
      next cursor if it names one. It names one if it is full, with the asked number of events between 1 and
      500, a hundred by default, and more follow; and it is marked truncated if the role's floor is above the
      start cursor. */
  ghost predicate Answers(s: State, role: nat, q: Query, page: Page) {
    var size := if q.limit.None? then 100 else if q.limit.value < 1 then 1 else if q.limit.value > 500 then 500 else q.limit.value;
    && |page.events| <= size && Increasing(page.events)
    && (forall e :: e in page.events ==> Entry(role, e) in s.history && Asked(q, e))
    && (forall e :: Entry(role, e) in s.history && Asked(q, e) && (page.next.Some? ==> e.sequence <= page.next.value) ==>
          e in page.events)
    && (page.next.Some? ==>
          && |page.events| == size && page.next.value == page.events[size - 1].sequence
          && exists e :: Entry(role, e) in s.history && Asked(q, e) && e.sequence > page.next.value)
    && (page.truncated <==> role in s.floors && s.floors[role] > (if q.cursor.Some? then q.cursor.value else 0))
  }

  lemma {:induction false} OfRoleHas(history: seq<Entry>, role: nat)
    ensures forall e :: e in OfRole(history, role) <==> Entry(role, e) in history
  {
    if history != [] {
      OfRoleHas(history[1..], role);
      assert history == [history[0]] + history[1..];
    }
  }

  lemma PageAnswers(s: State, role: nat, q: Query)
    requires Gapless(s, role)
    ensures Answers(s, role, q, List(s, role, q))
  {
    var kept := OfRole(s.history, role);
    var page, matches := List(s, role, q), Select(kept, q);
    OfRoleHas(s.history, role);
    SelectHas(kept, q);
    PageSplits(s, role, q);
    MatchingSelects(s.history, role, q);
    forall e ensures Asked(q, e) <==> Matches(q, e) {
    }
    SliceEvents(page.events, matches);
    forall e | Entry(role, e) in s.history && Asked(q, e) && (page.next.Some? ==> e.sequence <= page.next.value)
      ensures e in page.events
    {
      assert e in matches;
      UpToCursor(page.events, matches, e, page.next);
    }
    if page.next.Some? {
      var after := matches[|page.events|];
      assert after in matches && Entry(role, after) in s.history && Asked(q, after);
    }
  }

  lemma UpToCursor(slice: seq<Metadata>, all: seq<Metadata>, e: Metadata, next: Option<nat>)
    requires Increasing(all) && slice <= all && e in all
    requires next.None? ==> slice == all
    requires next.Some? ==> slice != [] && next.value == slice[|slice| - 1].sequence && e.sequence <= next.value
    ensures e in slice
  {
    var i :| 0 <= i < |all| && all[i] == e;
    if next.Some? {
      assert all[|slice| - 1] == slice[|slice| - 1];
      assert i < |slice|;
      assert slice[i] == e;
    }
  }

  /** Sequence number n was given to an event of this role that the queue no longer holds. */
  ghost predicate Evicted(s: State, role: nat, n: nat) {
    1 <= n <= Count(s.heads, role)
    && forall i :: 0 <= i < |OfRole(s.history, role)| ==> OfRole(s.history, role)[i].sequence != n
  }

  lemma EvictedIsBelowFloor(s: State, role: nat, n: nat)
    requires Gapless(s, role)
    ensures Evicted(s, role, n) <==> 1 <= n <= Count(s.floors, role)
  {
    var kept, floor := OfRole(s.history, role), Count(s.floors, role);
    if floor < n <= Count(s.heads, role) {
      assert kept[n - floor - 1].sequence == n;
    }
  }

  /** The marker tells the truth: a page is truncated exactly when some number above its cursor was
      given to an event of this role that is no longer in the queue. */
  lemma TruncatedExactly(s: State, role: nat, q: Query)
    requires Gapless(s, role)
    ensures List(s, role, q).truncated <==> exists n :: n > Cursor(q) && Evicted(s, role, n)
  {
    if List(s, role, q).truncated {
      EvictedIsBelowFloor(s, role, Count(s.floors, role));
    }
    forall n: nat ensures Evicted(s, role, n) <==> 1 <= n <= Count(s.floors, role) {
      EvictedIsBelowFloor(s, role, n);
    }
  }

  datatype Followed = Followed(events: seq<Metadata>, pages: nat, finished: bool)

  /** Following next_cursor: one page of each successive state of the log, each with its own limit,
      until a page names no next cursor or the states run out. */
  function Follow(states: seq<State>, limits: seq<Option<nat>>, role: nat, q: Query): Followed
    requires |states| == |limits|
    decreases |states|
  {
    if states == [] then Followed([], 0, false)
    else
      var page := List(states[0], role, q.(limit := limits[0]));
      if page.next.None? then Followed(page.events, 1, true)
      else
        var rest := Follow(states[1..], limits[1..], role, q.(cursor := page.next));
        Followed(page.events + rest.events, 1 + rest.pages, rest.finished)
  }

  ghost predicate Chain(states: seq<State>, role: nat) {
    && (forall i :: 0 <= i < |states| ==> Gapless(states[i], role))
    && (forall i, j :: 0 <= i < j < |states| ==> Evolves(states[i], states[j], role))
  }

  lemma ChainTail(states: seq<State>, role: nat)
    requires Chain(states, role) && states != []
    ensures Chain(states[1..], role)
  {
    assert forall i :: 0 <= i < |states[1..]| ==> states[1..][i] == states[i + 1];
  }

  lemma {:induction false} SelectIgnoresLimit(events: seq<Metadata>, q: Query, limit: Option<nat>)
    ensures Select(events, q.(limit := limit)) == Select(events, q)
  {
    if events != [] {
      SelectIgnoresLimit(events[1..], q, limit);
    }
  }

  /** A page's own events, seen through the query that asked for it. */
  lemma PageEvents(s: State, role: nat, q: Query, limit: Option<nat>)
    requires Gapless(s, role)
    ensures var page := List(s, role, q.(limit := limit));
            && Increasing(page.events)
            && (forall e :: e in page.events ==> Matches(q, e))
            && (page.next.Some? ==>
                  page.next.value > Cursor(q) && forall e :: e in page.events ==> e.sequence <= page.next.value)
  {
    var q0 := q.(limit := limit);
    var page, matches := List(s, role, q0), Select(OfRole(s.history, role), q0);
    PageSplits(s, role, q0);
    SelectHas(OfRole(s.history, role), q0);
    SliceEvents(page.events, matches);
    forall e | e in page.events ensures Matches(q, e) {
      assert Matches(q0, e);
    }
  }

  lemma SliceEvents(slice: seq<Metadata>, all: seq<Metadata>)
    requires Increasing(all) && slice <= all
    ensures Increasing(slice) && forall e :: e in slice ==> e in all && e.sequence <= slice[|slice| - 1].sequence
  {
    assert forall i :: 0 <= i < |slice| ==> slice[i] == all[i];
  }

  lemma IncreasingConcat(a: seq<Metadata>, b: seq<Metadata>, c: nat)
    requires Increasing(a) && Increasing(b)
    requires (forall e :: e in a ==> e.sequence <= c) && (forall e :: e in b ==> e.sequence > c)
    ensures Increasing(a + b)
  {
    forall i, j | 0 <= i < |a| && 0 <= j < |b| ensures a[i].sequence < b[j].sequence {
      assert a[i] in a && b[j] in b;
    }
  }

  lemma {:induction false} ChainNeverRepeats(states: seq<State>, limits: seq<Option<nat>>, role: nat, q: Query)
    requires |states| == |limits| && Chain(states, role)
    ensures var followed := Follow(states, limits, role, q);
            && Increasing(followed.events)
            && (forall e :: e in followed.events ==> Matches(q, e))
            && followed.pages <= |states| && (followed.finished ==> followed.pages >= 1)
    decreases |states|
  {
    if states != [] {
      var page := List(states[0], role, q.(limit := limits[0]));
      PageEvents(states[0], role, q, limits[0]);
      if page.next.Some? {
        ChainTail(states, role);
        ChainNeverRepeats(states[1..], limits[1..], role, q.(cursor := page.next));
        var rest := Follow(states[1..], limits[1..], role, q.(cursor := page.next)).events;
        IncreasingConcat(page.events, rest, page.next.value);
      }
    }
  }

  lemma {:induction false} ChainMissesNothing(states: seq<State>, limits: seq<Option<nat>>, role: nat, q: Query, n: nat)
    requires |states| == |limits| && Chain(states, role)
    requires Follow(states, limits, role, q).finished
    requires 1 <= Follow(states, limits, role, q).pages <= |states|
    requires var last := states[Follow(states, limits, role, q).pages - 1];
             && Count(last.floors, role) < n <= Count(last.heads, role) && n > Cursor(q)
             && EventAt(last, role, n).sequence == n && Filtered(q, EventAt(last, role, n))
    ensures EventAt(states[Follow(states, limits, role, q).pages - 1], role, n) in Follow(states, limits, role, q).events
    decreases |states|
  {
    var s, q0 := states[0], q.(limit := limits[0]);
    var page := List(s, role, q0);
    var followed := Follow(states, limits, role, q);
    var last := states[followed.pages - 1];
    var e := EventAt(last, role, n);
    PageSplits(s, role, q0);
    SelectHas(OfRole(s.history, role), q0);
    if page.next.None? {
      assert e in OfRole(s.history, role) && Matches(q0, e);
    } else {
      ChainTail(states, role);
      var rest := Follow(states[1..], limits[1..], role, q.(cursor := page.next));
      ChainNeverRepeats(states[1..], limits[1..], role, q.(cursor := page.next));
      assert states[1..][rest.pages - 1] == last;
      if n > page.next.value {
        ChainMissesNothing(states[1..], limits[1..], role, q.(cursor := page.next), n);
      } else {
        ReturnedByPage(s, last, role, q0, n);
      }
    }
  }

  /** A retained match numbered at or below a page's next cursor was on that page. */
  lemma ReturnedByPage(s: State, t: State, role: nat, q: Query, n: nat)
    requires Evolves(s, t, role) && List(s, role, q).next.Some?
    requires Count(t.floors, role) < n <= Count(t.heads, role) && Cursor(q) < n <= List(s, role, q).next.value
    requires Filtered(q, EventAt(t, role, n))
    ensures EventAt(t, role, n) in List(s, role, q).events
  {
    var kept, page := OfRole(s.history, role), List(s, role, q);
    var matches := Select(kept, q);
    PageSplits(s, role, q);
    SelectHas(kept, q);
    var last := page.events[|page.events| - 1];
    assert last == matches[|page.events| - 1] && last in kept;
    assert n <= Count(s.heads, role);
    var e := EventAt(s, role, n);
    assert e == EventAt(t, role, n) && e in kept && Matches(q, e);
    var i :| 0 <= i < |matches| && matches[i] == e;
    assert i < |page.events|;
    assert page.events[i] == e;
  }

  /** The log each page is read from: any flushes come before the first page and between pages. */
  function PageStates(s: State, flushes: seq<seq<Boundary>>): (states: seq<State>)
    ensures |states| == |flushes|
    decreases |flushes|
  {
    if flushes == [] then []
    else
      var t := FlushAll(s, flushes[0]);
      [t] + PageStates(t, flushes[1..])
  }

  /** Flushing gives each page a later state of one and the same log. */
  lemma {:induction false} PageStatesChain(s: State, flushes: seq<seq<Boundary>>, role: nat)
    requires Gapless(s, role)
    ensures var states := PageStates(s, flushes);
            Chain(states, role) && forall i :: 0 <= i < |states| ==> Evolves(s, states[i], role)
    decreases |flushes|
  {
    if flushes != [] {
      var t := FlushAll(s, flushes[0]);
      var states, rest := PageStates(s, flushes), PageStates(t, flushes[1..]);
      FlushesEvolve(s, flushes[0], role);
      PageStatesChain(t, flushes[1..], role);
      forall i | 0 <= i < |states| ensures Gapless(states[i], role) && Evolves(s, states[i], role) {
        if i > 0 {
          assert states[i] == rest[i - 1];
          EvolvesTransitive(s, t, states[i], role);
        }
      }
      forall i, j | 0 <= i < j < |states| ensures Evolves(states[i], states[j], role) {
        assert states[j] == rest[j - 1] && (i > 0 ==> states[i] == rest[i - 1]);
      }
    }
  }

  ghost predicate Empty(s: State) {
    s.heads == map[] && s.history == [] && s.floors == map[]
  }

  /** Nothing repeats: from an empty log on, whatever is flushed and evicted before the first page and
      between pages, under any terminals, the events returned are in strictly ascending order, above the
      start cursor, and all match the filters. */
  lemma FollowingNeverRepeats(s: State, flushes: seq<seq<Boundary>>, limits: seq<Option<nat>>, role: nat, q: Query)
    requires Empty(s) && |flushes| == |limits|
    ensures var followed := Follow(PageStates(s, flushes), limits, role, q);
            && Increasing(followed.events)
            && (forall e :: e in followed.events ==> Matches(q, e))
            && followed.pages <= |flushes| && (followed.finished ==> followed.pages >= 1)
  {
    PageStatesChain(s, flushes, role);
    ChainNeverRepeats(PageStates(s, flushes), limits, role, q);
  }

  lemma RetainedIsNumbered(s: State, role: nat, e: Metadata)
    requires Gapless(s, role) && e in OfRole(s.history, role)
    ensures Count(s.floors, role) < e.sequence <= Count(s.heads, role) && EventAt(s, role, e.sequence) == e
  {
    var kept := OfRole(s.history, role);
    var i :| 0 <= i < |kept| && kept[i] == e;
    assert kept[i].sequence == Count(s.floors, role) + 1 + i;
  }

  /** Nothing is missed: over the same runs, when following ends, every event still retained in the log the
      last page was read from, above the start cursor and matching the filters, was returned. */
  lemma FollowingMissesNothing(s: State, flushes: seq<seq<Boundary>>, limits: seq<Option<nat>>, role: nat, q: Query, e: Metadata)
    requires Empty(s) && |flushes| == |limits|
    requires Follow(PageStates(s, flushes), limits, role, q).finished
    requires 1 <= Follow(PageStates(s, flushes), limits, role, q).pages <= |flushes|
    requires var last := PageStates(s, flushes)[Follow(PageStates(s, flushes), limits, role, q).pages - 1];
             e in OfRole(last.history, role) && Matches(q, e)
    ensures e in Follow(PageStates(s, flushes), limits, role, q).events
  {
    var states := PageStates(s, flushes);
    PageStatesChain(s, flushes, role);
    RetainedIsNumbered(states[Follow(states, limits, role, q).pages - 1], role, e);
    ChainMissesNothing(states, limits, role, q, e.sequence);
  }

  /** With no flush between pages, any limits return exactly the matches, once each and in order,
      and following ends: there are never more pages than matches, and one. */
  lemma {:induction false} FollowingStillLog(states: seq<State>, limits: seq<Option<nat>>, role: nat, q: Query, s: State)
    requires |states| == |limits| && Gapless(s, role)
    requires forall i :: 0 <= i < |states| ==> states[i] == s
    requires |states| > |Select(OfRole(s.history, role), q)|
    ensures Follow(states, limits, role, q).finished
    ensures Follow(states, limits, role, q).events == Select(OfRole(s.history, role), q)
    decreases |states|
  {
    var page, matches := List(s, role, q.(limit := limits[0])), Select(OfRole(s.history, role), q);
    PageOfStillLog(s, role, q, limits[0]);
    assert states[0] == s;
    if page.next.Some? {
      SameStates(states, s);
      FollowingStillLog(states[1..], limits[1..], role, q.(cursor := page.next), s);
      SliceAndRest(page.events, matches);
    }
  }

  lemma SameStates(states: seq<State>, s: State)
    requires states != [] && forall i :: 0 <= i < |states| ==> states[i] == s
    ensures forall i :: 0 <= i < |states| - 1 ==> states[1..][i] == s
  {
    assert forall i :: 0 <= i < |states| - 1 ==> states[1..][i] == states[i + 1];
  }

  lemma SliceAndRest(slice: seq<Metadata>, all: seq<Metadata>)
    requires slice <= all
    ensures slice + all[|slice|..] == all
  {
  }

  lemma PageOfStillLog(s: State, role: nat, q: Query, limit: Option<nat>)
    requires Gapless(s, role)
    ensures var page, matches := List(s, role, q.(limit := limit)), Select(OfRole(s.history, role), q);
            && page.events <= matches
            && (page.next.None? ==> page.events == matches)
            && (page.next.Some? ==>
                  page.events != []
                  && Select(OfRole(s.history, role), q.(cursor := page.next)) == matches[|page.events|..])
  {
    var page := List(s, role, q.(limit := limit));
    PageSplits(s, role, q.(limit := limit));
    SelectIgnoresLimit(OfRole(s.history, role), q, limit);
    SelectIgnoresLimit(OfRole(s.history, role), q.(cursor := page.next), limit);
    assert q.(limit := limit).(cursor := page.next) == q.(cursor := page.next).(limit := limit);
  }
}
