/** The sign-in throttle, crates/server/src/auth.rs: ten attempts a name in a window of a minute that opens
    with its first attempt, and a bounded table. Times are nanoseconds, names their hashes. */
module Throttle {
  import opened Ordered

  const WINDOW: nat := 60_000_000_000
  const ATTEMPTS: nat := 10
  const TABLE: nat := 4096

  datatype Entry = Entry(start: nat, count: nat)
  /** An accepted attempt with the start of the window it was counted in. */
  datatype Accepted = Accepted(name: nat, at: nat, window: nat)
  /** log and clock are history: what was accepted so far, and the time of the last call. */
  datatype State = State(attempts: map<nat, Entry>, log: seq<Accepted>, clock: nat)
  datatype Call = Call(name: nat, now: nat)

  function Retained(attempts: map<nat, Entry>, now: nat): map<nat, Entry> {
    map name | name in attempts && SaturatingSub(now, attempts[name].start) < WINDOW :: attempts[name]
  }

  /** One call; the answer is whether the attempt may go on. */
  function Admit(s: State, c: Call): (State, bool) {
    var kept := Retained(s.attempts, c.now);
    if |kept| >= TABLE then (s.(attempts := kept, clock := c.now), false)
    else
      var entry := if c.name in kept then kept[c.name] else Entry(c.now, 0);
      if entry.count >= ATTEMPTS then (s.(attempts := kept[c.name := entry], clock := c.now), false)
      else (State(kept[c.name := entry.(count := entry.count + 1)], s.log + [Accepted(c.name, c.now, entry.start)], c.now), true)
  }

  ghost predicate InOrder(clock: nat, calls: seq<Call>)
    decreases |calls|
  {
    calls == [] || (clock <= calls[0].now && InOrder(calls[0].now, calls[1..]))
  }

  ghost function Run(s: State, calls: seq<Call>): State
    decreases |calls|
  {
    if calls == [] then s else Run(Admit(s, calls[0]).0, calls[1..])
  }

  const EMPTY: State := State(map[], [], 0)

  // ---- Counting -----------------------------------------------------------------------------

  ghost function InWindow(log: seq<Accepted>, name: nat, window: nat): nat {
    if log == [] then 0
    else
      var last := log[|log| - 1];
      InWindow(log[..|log| - 1], name, window) + (if last.name == name && last.window == window then 1 else 0)
  }

  /** Accepted attempts of a name from one time to another, both included. */
  ghost function InSpan(log: seq<Accepted>, name: nat, from: nat, to: nat): nat {
    if log == [] then 0
    else
      var last := log[|log| - 1];
      InSpan(log[..|log| - 1], name, from, to) + (if last.name == name && from <= last.at <= to then 1 else 0)
  }

  // ---- Invariants ---------------------------------------------------------------------------

  ghost predicate LogTimes(s: State) {
    forall i :: 0 <= i < |s.log| ==> s.log[i].window <= s.log[i].at < s.log[i].window + WINDOW && s.log[i].at <= s.clock
  }

  ghost predicate WindowsApart(s: State) {
    forall i, j :: 0 <= i < |s.log| && 0 <= j < |s.log| && s.log[i].name == s.log[j].name && s.log[i].window < s.log[j].window ==>
      s.log[i].window + WINDOW <= s.log[j].window
  }

  ghost predicate EntriesCount(s: State) {
    forall name :: name in s.attempts ==>
      && s.attempts[name].start <= s.clock && s.attempts[name].count <= ATTEMPTS
      && s.attempts[name].count == InWindow(s.log, name, s.attempts[name].start)
  }

  ghost predicate WindowsFull(s: State) {
    forall name, window :: InWindow(s.log, name, window) <= ATTEMPTS
  }

  /** An attempt's window is the name's current one or over. */
  ghost predicate WindowsClose(s: State) {
    forall i :: 0 <= i < |s.log| ==>
      if s.log[i].name in s.attempts
      then s.attempts[s.log[i].name].start == s.log[i].window || s.attempts[s.log[i].name].start >= s.log[i].window + WINDOW
      else s.clock >= s.log[i].window + WINDOW
  }

  ghost predicate Inv(s: State) {
    |s.attempts| <= TABLE && LogTimes(s) && WindowsApart(s) && EntriesCount(s) && WindowsFull(s) && WindowsClose(s)
  }

  lemma {:induction false} UnusedWindowIsEmpty(log: seq<Accepted>, name: nat, window: nat)
    requires forall i :: 0 <= i < |log| ==> log[i].name != name || log[i].window != window
    ensures InWindow(log, name, window) == 0
    decreases |log|
  {
    if log != [] {
      UnusedWindowIsEmpty(log[..|log| - 1], name, window);
    }
  }

  lemma SmallerMap(a: map<nat, Entry>, b: map<nat, Entry>)
    requires a.Keys <= b.Keys
    ensures |a| <= |b|
    decreases |a|
  {
    if a != map[] {
      var k :| k in a;
      assert (a - {k}).Keys == a.Keys - {k} && (b - {k}).Keys == b.Keys - {k};
      SmallerMap(a - {k}, b - {k});
    }
  }

  /** Time passes and windows that are over are dropped. */
  lemma RetainKeeps(s: State, now: nat)
    requires Inv(s) && s.clock <= now
    ensures Inv(s.(attempts := Retained(s.attempts, now), clock := now))
  {
    SmallerMap(Retained(s.attempts, now), s.attempts);
  }

  /** What an accepted attempt changes. */
  ghost predicate Accepts(s: State, t: State, name: nat, entry: Entry) {
    && entry == (if name in s.attempts then s.attempts[name] else Entry(s.clock, 0))
    && entry.count < ATTEMPTS && |s.attempts| < TABLE && t.clock == s.clock
    && t.attempts == s.attempts[name := Entry(entry.start, entry.count + 1)]
    && t.log == s.log + [Accepted(name, s.clock, entry.start)]
  }

  ghost predicate AllOpen(s: State) {
    forall n :: n in s.attempts ==> s.clock < s.attempts[n].start + WINDOW
  }

  lemma AcceptCounts(s: State, t: State, name: nat, entry: Entry, n: nat, window: nat)
    requires Accepts(s, t, name, entry)
    ensures InWindow(t.log, n, window) == InWindow(s.log, n, window) + (if n == name && window == entry.start then 1 else 0)
  {
    assert t.log[..|s.log|] == s.log;
  }

  lemma AcceptKeepsCounts(s: State, t: State, name: nat, entry: Entry)
    requires Inv(s) && AllOpen(s) && Accepts(s, t, name, entry)
    ensures EntriesCount(t) && WindowsFull(t)
  {
    if name !in s.attempts {
      UnusedWindowIsEmpty(s.log, name, entry.start);
    }
    assert InWindow(s.log, name, entry.start) == entry.count;
    forall n, w ensures InWindow(t.log, n, w) <= ATTEMPTS {
      AcceptCounts(s, t, name, entry, n, w);
    }
    forall n | n in t.attempts
      ensures t.attempts[n].start <= t.clock && t.attempts[n].count <= ATTEMPTS
              && t.attempts[n].count == InWindow(t.log, n, t.attempts[n].start)
    {
      AcceptCounts(s, t, name, entry, n, t.attempts[n].start);
    }
  }

  lemma AcceptKeepsWindows(s: State, t: State, name: nat, entry: Entry)
    requires Inv(s) && AllOpen(s) && Accepts(s, t, name, entry)
    ensures LogTimes(t) && WindowsApart(t) && WindowsClose(t)
  {
    assert forall i :: 0 <= i < |s.log| ==> t.log[i] == s.log[i];
    assert t.log[|s.log|].window == entry.start;
  }

  /** An accepted attempt opens a window only when the name has none, and fits into the open one. */
  lemma AcceptKeeps(s: State, t: State, name: nat, entry: Entry)
    requires Inv(s) && AllOpen(s) && Accepts(s, t, name, entry)
    ensures Inv(t)
  {
    AcceptKeepsCounts(s, t, name, entry);
    AcceptKeepsWindows(s, t, name, entry);
  }

  lemma AdmitKeeps(s: State, c: Call)
    requires Inv(s) && s.clock <= c.now
    ensures Inv(Admit(s, c).0) && Admit(s, c).0.clock == c.now
  {
    var kept := Retained(s.attempts, c.now);
    RetainKeeps(s, c.now);
    if |kept| < TABLE {
      AdmitWithRoom(s.(attempts := kept, clock := c.now), s, c);
    }
  }

  lemma AdmitWithRoom(waiting: State, s: State, c: Call)
    requires waiting == s.(attempts := Retained(s.attempts, c.now), clock := c.now)
    requires Inv(waiting) && s.clock <= c.now && |waiting.attempts| < TABLE
    ensures Inv(Admit(s, c).0)
  {
    var kept := waiting.attempts;
    var entry := if c.name in kept then kept[c.name] else Entry(c.now, 0);
    if entry.count < ATTEMPTS {
      AcceptKeeps(waiting, Admit(s, c).0, c.name, entry);
    } else {
      assert kept[c.name := entry] == kept;
    }
  }

  lemma {:induction false} RunKeeps(s: State, calls: seq<Call>)
    requires Inv(s) && InOrder(s.clock, calls)
    ensures Inv(Run(s, calls))
    decreases |calls|
  {
    if calls != [] {
      AdmitKeeps(s, calls[0]);
      RunKeeps(Admit(s, calls[0]).0, calls[1..]);
    }
  }

  // ---- What a name is allowed -----------------------------------------------------------------

  ghost predicate InSpanAt(log: seq<Accepted>, name: nat, from: nat, i: int) {
    0 <= i < |log| && log[i].name == name && from <= log[i].at <= from + WINDOW
  }

  lemma {:induction false} SpanWithinWindows(log: seq<Accepted>, name: nat, from: nat, a: nat, b: nat)
    requires forall i :: InSpanAt(log, name, from, i) ==> log[i].window == a || log[i].window == b
    ensures InSpan(log, name, from, from + WINDOW) <= InWindow(log, name, a) + InWindow(log, name, b)
    decreases |log|
  {
    if log != [] {
      var rest := log[..|log| - 1];
      assert forall i :: InSpanAt(rest, name, from, i) ==> InSpanAt(log, name, from, i);
      assert InSpanAt(log, name, from, |log| - 1) || !(log[|log| - 1].name == name && from <= log[|log| - 1].at <= from + WINDOW);
      SpanWithinWindows(rest, name, from, a, b);
    }
  }

  /** A span of one minute meets at most two windows. */
  lemma SpanMeetsTwoWindows(s: State, name: nat, from: nat) returns (a: nat, b: nat)
    requires Inv(s)
    ensures forall i :: InSpanAt(s.log, name, from, i) ==> s.log[i].window == a || s.log[i].window == b
  {
    a, b := 0, 0;
    if i :| InSpanAt(s.log, name, from, i) {
      a, b := s.log[i].window, s.log[i].window;
      if j :| InSpanAt(s.log, name, from, j) && s.log[j].window != a {
        b := s.log[j].window;
        forall k | InSpanAt(s.log, name, from, k) ensures s.log[k].window == a || s.log[k].window == b {
          ThreeWindowsAreTooMany(s, i, j, k);
        }
      }
    }
  }

  lemma ThreeWindowsAreTooMany(s: State, i: nat, j: nat, k: nat)
    requires Inv(s) && i < |s.log| && j < |s.log| && k < |s.log|
    requires s.log[i].name == s.log[j].name == s.log[k].name && s.log[i].window != s.log[j].window
    requires SaturatingSub(s.log[i].at, s.log[j].at) <= WINDOW && SaturatingSub(s.log[j].at, s.log[i].at) <= WINDOW
    requires SaturatingSub(s.log[i].at, s.log[k].at) <= WINDOW && SaturatingSub(s.log[k].at, s.log[i].at) <= WINDOW
    requires SaturatingSub(s.log[k].at, s.log[j].at) <= WINDOW && SaturatingSub(s.log[j].at, s.log[k].at) <= WINDOW
    ensures s.log[k].window == s.log[i].window || s.log[k].window == s.log[j].window
  {
  }

  /** In every run of calls with the clock going forward: at most ten attempts of a name in each counting
      window, at most twenty in any minute, and never more than 4096 names in the table. */
  lemma AttemptsAreBounded(calls: seq<Call>, name: nat, window: nat, from: nat)
    requires InOrder(0, calls)
    ensures var s := Run(EMPTY, calls);
            && InWindow(s.log, name, window) <= ATTEMPTS
            && InSpan(s.log, name, from, from + WINDOW) <= 2 * ATTEMPTS
            && |s.attempts| <= TABLE
  {
    RunKeeps(EMPTY, calls);
    var s := Run(EMPTY, calls);
    var a, b := SpanMeetsTwoWindows(s, name, from);
    SpanWithinWindows(s.log, name, from, a, b);
  }

  /** The names whose window is open. */
  ghost function OpenNames(s: State, now: nat): (names: set<nat>)
    ensures forall n :: n in names <==> n in s.attempts && now < s.attempts[n].start + 60_000_000_000
  {
    set n | n in s.attempts && now < s.attempts[n].start + 60_000_000_000
  }

  /** The name has used up the window it opened less than a minute ago. */
  ghost predicate UsedUp(s: State, name: nat, now: nat) {
    name in s.attempts && s.attempts[name].start <= now < s.attempts[name].start + 60_000_000_000
    && InWindow(s.log, name, s.attempts[name].start) == 10
  }

  /** An attempt is refused exactly when 4096 windows are open, or the name has used its own one up. */
  lemma RefusedExactly(s: State, c: Call)
    requires Inv(s) && s.clock <= c.now
    ensures !Admit(s, c).1 <==> |OpenNames(s, c.now)| == 4096 || UsedUp(s, c.name, c.now)
  {
    var kept := Retained(s.attempts, c.now);
    assert kept.Keys == OpenNames(s, c.now);
    SmallerMap(kept, s.attempts);
    if c.name in s.attempts {
      assert s.attempts[c.name].count == InWindow(s.log, c.name, s.attempts[c.name].start);
    }
  }

  /** An attempt is counted exactly if it is let through, in the name's open window or in one it opens; and a
      window that is over is forgotten. */
  lemma CountedExactly(s: State, c: Call)
    requires Inv(s) && s.clock <= c.now
    ensures var (t, admitted) := Admit(s, c);
            var window := if c.name in s.attempts && c.now < s.attempts[c.name].start + 60_000_000_000
                          then s.attempts[c.name].start else c.now;
            && t.log == s.log + (if admitted then [Accepted(c.name, c.now, window)] else [])
            && (forall n :: n in t.attempts <==> n in OpenNames(s, c.now) || (admitted && n == c.name))
            && (forall n :: n in t.attempts ==>
                  t.attempts[n].start == if n == c.name && admitted then window else s.attempts[n].start)
  {
  }

  class Sessions {
    var attempts: map<nat, Entry>
    ghost var log: seq<Accepted>
    ghost var clock: nat

    ghost function Model(): State
      reads this
    {
      State(attempts, log, clock)
    }

    constructor ()
      ensures Model() == EMPTY
    {
      attempts, log, clock := map[], [], 0;
    }

    method Throttle(name: nat, now: nat) returns (admitted: bool)
      modifies this
      ensures (Model(), admitted) == Admit(old(Model()), Call(name, now))
    {
      attempts, clock := Retained(attempts, now), now;
      if |attempts| >= TABLE {
        return false;
      }
      if name !in attempts {
        attempts := attempts[name := Entry(now, 0)];
      }
      var entry := attempts[name];
      if entry.count >= ATTEMPTS {
        assert attempts == attempts[name := entry];
        return false;
      }
      attempts := attempts[name := entry.(count := entry.count + 1)];
      assert attempts == Retained(old(attempts), now)[name := entry.(count := entry.count + 1)];
      log := log + [Accepted(name, now, entry.start)];
      return true;
    }
  }
}
