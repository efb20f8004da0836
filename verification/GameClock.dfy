/** Frame pacing, crates/server/src/game_clock.rs. Instants are nanoseconds since an arbitrary origin. */
module GameClock {
  import opened Ordered

  /** One sixtieth of a second, rounded to nanoseconds. */
  const PERIOD: nat := 16_666_667

  predicate IsDue(next: Option<nat>, now: nat) {
    next.None? || now >= next.value
  }

  function NextDeadline(next: Option<nat>, now: nat): nat {
    var deadline := (if next.None? then now else next.value) + PERIOD;
    if deadline > now then deadline else now + PERIOD
  }

  /** The scheduler after frames at these times. */
  function After(next: Option<nat>, frames: seq<nat>): (last: Option<nat>)
    ensures next.Some? || frames != [] ==> last.Some?
    decreases |frames|
  {
    if frames == [] then next else After(Some(NextDeadline(next, frames[0])), frames[1..])
  }

  /** Every frame was due when it advanced. */
  ghost predicate Paced(next: Option<nat>, frames: seq<nat>)
    decreases |frames|
  {
    frames == [] || (IsDue(next, frames[0]) && Paced(Some(NextDeadline(next, frames[0])), frames[1..]))
  }

  class Scheduler {
    var next: Option<nat>

    /** When frames advanced since the last reset. */
    ghost var frames: seq<nat>

    ghost predicate Valid()
      reads this
    {
      next == After(None, frames)
    }

    constructor ()
      ensures Valid() && frames == []
    {
      next, frames := None, [];
    }

    method Reset()
      modifies this
      ensures Valid() && frames == [] && next == None
    {
      next, frames := None, [];
    }

    method Due(now: nat) returns (due: bool)
      ensures due == IsDue(next, now)
    {
      due := next.None? || now >= next.value;
    }

    /** The wait after which a frame is due, and no shorter one would do. */
    method Delay(now: nat) returns (wait: nat)
      ensures IsDue(next, now + wait) && forall t :: now <= t < now + wait ==> !IsDue(next, t)
    {
      wait := if next.None? then 0 else SaturatingSub(next.value, now);
    }

    /** A frame advanced. If every frame since the reset was due, this one comes at least a period after the
        first for each frame between, and the next one is due after at most a period, but not at once. */
    method AdvancedFrame(now: nat)
      requires Valid()
      modifies this
      ensures Valid() && frames == old(frames) + [now]
      ensures next.Some? && !IsDue(next, now)
      ensures Paced(None, frames) <==> old(Paced(None, frames) && IsDue(next, now))
      ensures Paced(None, frames) ==> now >= frames[0] + (|frames| - 1) * PERIOD && IsDue(next, now + PERIOD)
    {
      AfterAppends(None, frames, now);
      ghost var grown := frames + [now];
      if Paced(None, grown) {
        FirstFramesTakePeriods(grown, |grown| - 1);
        NoCatchUpDebt(next, now);
      }
      var deadline := (if next.None? then now else next.value) + PERIOD;
      if deadline <= now {
        deadline := now + PERIOD;
      }
      next, frames := Some(deadline), grown;
    }
  }

  lemma {:induction false} AfterAppends(next: Option<nat>, frames: seq<nat>, now: nat)
    ensures After(next, frames + [now]) == Some(NextDeadline(After(next, frames), now))
    ensures Paced(next, frames + [now]) <==> Paced(next, frames) && IsDue(After(next, frames), now)
    decreases |frames|
  {
    var grown := frames + [now];
    if frames == [] {
      assert grown == [now] && After(Some(NextDeadline(next, now)), []) == Some(NextDeadline(next, now));
    } else {
      assert grown[0] == frames[0] && grown[1..] == frames[1..] + [now];
      AfterAppends(Some(NextDeadline(next, frames[0])), frames[1..], now);
    }
  }

  /** However long the stall, the next deadline is ahead by at most a period: no debt builds up. */
  lemma NoCatchUpDebt(next: Option<nat>, now: nat)
    ensures IsDue(next, now) <==> NextDeadline(next, now) <= now + PERIOD
    ensures now < NextDeadline(next, now)
  {
  }

  lemma {:induction false} FramesWait(next: nat, frames: seq<nat>, k: nat)
    requires Paced(Some(next), frames) && k < |frames|
    ensures frames[k] >= next + k * PERIOD
    decreases |frames|
  {
    if k > 0 {
      FramesWait(NextDeadline(Some(next), frames[0]), frames[1..], k - 1);
      assert (k - 1) * PERIOD + PERIOD == k * PERIOD;
    }
  }

  /** After the first frame of a fresh scheduler, k further frames take at least k periods. */
  lemma FirstFramesTakePeriods(frames: seq<nat>, k: nat)
    requires Paced(None, frames) && k < |frames|
    ensures frames[k] >= frames[0] + k * PERIOD
  {
    if k > 0 {
      FramesWait(NextDeadline(None, frames[0]), frames[1..], k - 1);
      assert (k - 1) * PERIOD + PERIOD == k * PERIOD;
    }
  }

  /** From any state, k + 1 frames take more than k - 1 periods. */
  lemma AnyFramesTakePeriods(next: Option<nat>, frames: seq<nat>, k: nat)
    requires Paced(next, frames) && 0 < k < |frames|
    ensures frames[k] > frames[0] + (k - 1) * PERIOD
  {
    FramesWait(NextDeadline(next, frames[0]), frames[1..], k - 1);
  }

  /** Each frame came less than a period after its deadline. */
  ghost predicate Punctual(start: nat, frames: seq<nat>) {
    forall i :: 0 <= i < |frames| ==> frames[i] < start + (i + 1) * PERIOD
  }

  /** While frames are less than a period late, deadlines stay on the grid: lateness does not accumulate.
      The first frame that is a whole period late moves the grid. */
  lemma {:induction false} DeadlinesStayOnGrid(start: nat, frames: seq<nat>)
    requires Paced(Some(start), frames)
    ensures Punctual(start, frames) ==> After(Some(start), frames) == Some(start + |frames| * PERIOD)
    ensures frames != [] && !Punctual(start, frames) ==> After(Some(start), frames).value > start + |frames| * PERIOD
    decreases |frames|
  {
    if frames != [] {
      var next := NextDeadline(Some(start), frames[0]);
      var rest := frames[1..];
      DeadlinesStayOnGrid(next, rest);
      GridStep(start, frames);
      if next == start + PERIOD {
        PunctualStep(start, frames);
      }
    }
  }

  lemma GridStep(start: nat, frames: seq<nat>)
    requires frames != []
    ensures start + PERIOD + (|frames| - 1) * PERIOD == start + |frames| * PERIOD
  {
  }

  lemma PunctualStep(start: nat, frames: seq<nat>)
    requires frames != [] && frames[0] < start + PERIOD
    ensures Punctual(start, frames) <==> Punctual(start + PERIOD, frames[1..])
  {
    forall i: nat | i < |frames| - 1
      ensures (frames[1..][i] < start + PERIOD + (i + 1) * PERIOD) == (frames[i + 1] < start + (i + 2) * PERIOD)
    {
      assert PERIOD + (i + 1) * PERIOD == (i + 2) * PERIOD;
    }
    if Punctual(start + PERIOD, frames[1..]) {
      forall i | 0 <= i < |frames| ensures frames[i] < start + (i + 1) * PERIOD {
        if i > 0 {
          assert frames[1..][i - 1] < start + PERIOD + i * PERIOD;
        }
      }
    }
    if Punctual(start, frames) {
      forall i | 0 <= i < |frames| - 1 ensures frames[1..][i] < start + PERIOD + (i + 1) * PERIOD {
        assert frames[i + 1] < start + (i + 2) * PERIOD;
      }
    }
  }
}
