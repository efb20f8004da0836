/** The committed rate of crates/server/src/diagnostics.rs: progress over the commits that the bounded windows
    still remember. Times are nanoseconds. */
module Diagnostics {
  import opened Ordered
  import opened Samples

  const STALE_NS: nat := 3_000_000_000
  const SECOND_NS: real := 1_000_000_000.0

  datatype Commit = Commit(at: nat, frames: nat, seconds: nat)

  function Sum(s: seq<int>): int {
    if s == [] then 0 else s[0] + Sum(s[1..])
  }

  lemma {:induction false} SumSplits(a: seq<int>, b: seq<int>)
    ensures Sum(a + b) == Sum(a) + Sum(b)
    decreases |a|
  {
    if a == [] {
      assert a + b == b;
    } else {
      assert (a + b)[1..] == a[1..] + b;
      SumSplits(a[1..], b);
    }
  }

  ghost predicate InOrder(commits: seq<Commit>) {
    forall i, j :: 0 <= i < j < |commits| ==> commits[i].at <= commits[j].at
  }

  /** How many samples the windows hold after so many commits: the first one only starts the clock. */
  function Retained(commits: nat): nat {
    if commits == 0 then 0 else Min(WINDOW, commits - 1)
  }

  ghost function Gap(commits: seq<Commit>, i: int): int
    requires 0 < i < |commits|
  {
    commits[i].at - commits[i - 1].at
  }

  /** The windows describe the most recent commits, each with the time since the one before it. */
  ghost predicate Describes(commits: seq<Commit>, intervals: seq<int>, seconds: seq<int>, frames: seq<int>) {
    var n := Retained(|commits|);
    && |intervals| == |seconds| == |frames| == n
    && (forall i :: 0 <= i < n ==>
          && intervals[i] == Gap(commits, |commits| - n + i)
          && seconds[i] == commits[|commits| - n + i].seconds && frames[i] == commits[|commits| - n + i].frames)
  }

  lemma DescriptionGrows(commits: seq<Commit>, intervals: seq<int>, seconds: seq<int>, frames: seq<int>, c: Commit)
    requires Describes(commits, intervals, seconds, frames) && commits != []
    ensures Describes(commits + [c], Pushed(intervals, c.at - commits[|commits| - 1].at),
                      Pushed(seconds, c.seconds), Pushed(frames, c.frames))
  {
    var n, grown := Retained(|commits|), commits + [c];
    assert forall i :: 0 < i < |commits| ==> Gap(commits, i) == Gap(grown, i);
  }

  /** The meter's windows and its last commit time tell the recent commits. */
  ghost predicate Tracks(
    commits: seq<Commit>, last: Option<nat>, intervals: seq<int>, seconds: seq<int>, frames: seq<int>) {
    && InOrder(commits) && Describes(commits, intervals, seconds, frames)
    && last == if commits == [] then None else Some(commits[|commits| - 1].at)
  }

  /** One more commit; the first only starts the clock. */
  lemma CommitTracked(
    commits: seq<Commit>, last: Option<nat>, intervals: seq<int>, seconds: seq<int>, frames: seq<int>, c: Commit)
    requires Tracks(commits, last, intervals, seconds, frames) && (last.Some? ==> last.value <= c.at)
    ensures last.None? ==> Tracks(commits + [c], Some(c.at), intervals, seconds, frames)
    ensures last.Some? ==> Tracks(commits + [c], Some(c.at), Pushed(intervals, c.at - last.value),
                                  Pushed(seconds, c.seconds), Pushed(frames, c.frames))
  {
    if commits != [] {
      DescriptionGrows(commits, intervals, seconds, frames, c);
    }
  }

  /** Telescoping: the retained intervals sum to the time since the commit before the oldest sample. */
  lemma {:induction false} IntervalsTelescope(commits: seq<Commit>, intervals: seq<int>, k: nat)
    requires |intervals| < |commits| && k <= |intervals|
    requires forall i :: 0 <= i < |intervals| ==> intervals[i] == Gap(commits, |commits| - |intervals| + i)
    ensures Sum(intervals[..k]) == commits[|commits| - |intervals| + k - 1].at - commits[|commits| - |intervals| - 1].at
    decreases k
  {
    if k > 0 {
      IntervalsTelescope(commits, intervals, k - 1);
      assert intervals[..k] == intervals[..k - 1] + [intervals[k - 1]];
      SumSplits(intervals[..k - 1], [intervals[k - 1]]);
    }
  }

  /** Total progress from one commit, exclusive, to the last. */
  ghost function Progress(commits: seq<Commit>, since: nat, ofFrames: bool): int
    requires since < |commits|
    decreases |commits| - since
  {
    if since == |commits| - 1 then 0
    else (if ofFrames then commits[since + 1].frames else commits[since + 1].seconds) + Progress(commits, since + 1, ofFrames)
  }

  lemma {:induction false} SamplesAddUp(commits: seq<Commit>, values: seq<int>, ofFrames: bool)
    requires |values| < |commits|
    requires forall i :: 0 <= i < |values| ==>
      values[i] == if ofFrames then commits[|commits| - |values| + i].frames else commits[|commits| - |values| + i].seconds
    ensures Sum(values) == Progress(commits, |commits| - |values| - 1, ofFrames)
    decreases |values|
  {
    if values != [] {
      SamplesAddUp(commits, values[1..], ofFrames);
    }
  }

  function Rate(progress: int, elapsed: int): (r: real)
    requires elapsed > 0
    ensures r * elapsed as real == progress as real * SECOND_NS
  {
    progress as real * SECOND_NS / elapsed as real
  }

  class Meter {
    var tickMs: Window
    var intervals: Window
    var seconds: Window
    var frames: Window
    var lastTick: Option<nat>
    var lastCommit: Option<nat>
    var scheduleDelay: int

    /** Every commit with frames since the last reset. */
    ghost var commits: seq<Commit>

    ghost predicate Valid()
      reads this, tickMs, intervals, seconds, frames
    {
      && tickMs != intervals && tickMs != seconds && tickMs != frames
      && intervals != seconds && intervals != frames && seconds != frames
      && tickMs.Valid() && intervals.Valid() && seconds.Valid() && frames.Valid()
      && Tracks(commits, lastCommit, intervals.values, seconds.values, frames.values)
    }

    constructor ()
      ensures Valid() && commits == [] && lastTick == None
    {
      tickMs := new Window();
      intervals := new Window();
      seconds := new Window();
      frames := new Window();
      lastTick, lastCommit, scheduleDelay, commits := None, None, 0, [];
    }

    method ResetRate()
      requires Valid()
      modifies this
      ensures Valid() && commits == [] && lastTick == None && lastCommit == None
      ensures tickMs == old(tickMs) && scheduleDelay == old(scheduleDelay)
    {
      intervals := new Window();
      seconds := new Window();
      frames := new Window();
      lastTick, lastCommit, commits := None, None, [];
    }

    method RecordTick(elapsed: int, delay: int, now: nat)
      requires Valid()
      modifies this`lastTick, this`scheduleDelay, tickMs
      ensures Valid() && tickMs.recorded == old(tickMs.recorded) + [elapsed]
      ensures lastTick == Some(now) && scheduleDelay == delay
    {
      tickMs.Push(elapsed);
      lastTick, scheduleDelay := Some(now), delay;
    }

    method PushSample(interval: int, gameSeconds: nat, count: nat)
      requires intervals != seconds && intervals != frames && seconds != frames
      requires intervals.Valid() && seconds.Valid() && frames.Valid()
      modifies intervals, seconds, frames
      ensures intervals.Valid() && seconds.Valid() && frames.Valid()
      ensures intervals.values == Pushed(old(intervals.values), interval)
      ensures seconds.values == Pushed(old(seconds.values), gameSeconds)
      ensures frames.values == Pushed(old(frames.values), count)
    {
      intervals.Push(interval);
      seconds.Push(gameSeconds);
      frames.Push(count);
    }

    /** A commit without frames leaves no trace. */
    method RecordCommit(now: nat, count: nat, gameSeconds: nat)
      requires Valid() && (lastCommit.Some? ==> lastCommit.value <= now)
      modifies this`lastCommit, this`commits, intervals, seconds, frames
      ensures Valid()
      ensures commits == if count == 0 then old(commits) else old(commits) + [Commit(now, count, gameSeconds)]
    {
      if count == 0 {
        return;
      }
      ghost var grown := commits + [Commit(now, count, gameSeconds)];
      CommitTracked(commits, lastCommit, intervals.values, seconds.values, frames.values, Commit(now, count, gameSeconds));
      if lastCommit.Some? {
        PushSample(now - lastCommit.value, gameSeconds, count);
      }
      assert Tracks(grown, Some(now), intervals.values, seconds.values, frames.values);
      lastCommit, commits := Some(now), grown;
    }

    /** Progress per second since the commit before the oldest retained one; nothing is reported without a
        sample, three seconds after the last commit, or if no time has passed. */
    method CommittedRate(ofFrames: bool, now: nat) returns (rate: Option<real>)
      requires Valid() && (lastCommit.Some? ==> lastCommit.value <= now)
      ensures var n := Retained(|commits|);
              && (rate.Some? <==> n > 0 && now <= commits[|commits| - 1].at + STALE_NS && now > commits[|commits| - n - 1].at)
              && (rate.Some? ==> rate.value == Rate(Progress(commits, |commits| - n - 1, ofFrames), now - commits[|commits| - n - 1].at))
    {
      if lastCommit.None? {
        return None;
      }
      var samples := if ofFrames then frames.values else seconds.values;
      if samples == [] || now - lastCommit.value > STALE_NS {
        return None;
      }
      var elapsed := Sum(intervals.values) + (now - lastCommit.value);
      IntervalsTelescope(commits, intervals.values, |intervals.values|);
      assert intervals.values[..|intervals.values|] == intervals.values;
      SamplesAddUp(commits, samples, ofFrames);
      if elapsed <= 0 {
        return None;
      }
      return Some(Rate(Sum(samples), elapsed));
    }
  }
}
