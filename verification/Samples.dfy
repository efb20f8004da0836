/** The bounded telemetry window of crates/server/src/diagnostics.rs and its nearest-rank percentile.
    Samples are integers. */
module Samples {
  import opened Ordered

  const WINDOW: nat := 120

  function Pushed(window: seq<int>, value: int): seq<int> {
    (if |window| == WINDOW then window[1..] else window) + [value]
  }

  function Insert(x: int, s: seq<int>): seq<int> {
    if s == [] || x <= s[0] then [x] + s else [s[0]] + Insert(x, s[1..])
  }

  function Sorted(s: seq<int>): seq<int> {
    if s == [] then [] else Insert(s[0], Sorted(s[1..]))
  }

  ghost predicate Increasing(s: seq<int>) {
    forall i, j :: 0 <= i < j < |s| ==> s[i] <= s[j]
  }

  /** How many samples are at most v. */
  ghost function AtMost(s: seq<int>, v: int): nat {
    if s == [] then 0 else (if s[0] <= v then 1 else 0) + AtMost(s[1..], v)
  }

  /** How many samples are below v. */
  ghost function Below(s: seq<int>, v: int): nat {
    AtMost(s, v - 1)
  }

  lemma {:induction false} InsertKeepsSamples(x: int, s: seq<int>)
    ensures |Insert(x, s)| == |s| + 1 && forall y :: y in Insert(x, s) <==> y == x || y in s
    decreases |s|
  {
    if s != [] && x > s[0] {
      InsertKeepsSamples(x, s[1..]);
      assert s == [s[0]] + s[1..];
    }
  }

  lemma {:induction false} InsertKeepsOrder(x: int, s: seq<int>)
    requires Increasing(s)
    ensures Increasing(Insert(x, s))
    decreases |s|
  {
    if s != [] && x > s[0] {
      InsertKeepsOrder(x, s[1..]);
      InsertKeepsSamples(x, s[1..]);
      var r := Insert(x, s[1..]);
      forall i | 0 <= i < |r| ensures s[0] <= r[i] {
        assert r[i] in r;
      }
    }
  }

  lemma {:induction false} InsertCounts(x: int, s: seq<int>, v: int)
    ensures AtMost(Insert(x, s), v) == AtMost(s, v) + (if x <= v then 1 else 0)
    decreases |s|
  {
    if s == [] || x <= s[0] {
      assert ([x] + s)[1..] == s;
    } else {
      InsertCounts(x, s[1..], v);
      assert ([s[0]] + Insert(x, s[1..]))[1..] == Insert(x, s[1..]);
    }
  }

  lemma {:induction false} SortedCounts(s: seq<int>, v: int)
    ensures AtMost(Sorted(s), v) == AtMost(s, v)
    decreases |s|
  {
    if s != [] {
      SortedCounts(s[1..], v);
      InsertCounts(s[0], Sorted(s[1..]), v);
    }
  }

  lemma {:induction false} SortedIsRearranged(s: seq<int>)
    ensures Increasing(Sorted(s)) && |Sorted(s)| == |s| && forall y :: y in Sorted(s) <==> y in s
    decreases |s|
  {
    if s != [] {
      SortedIsRearranged(s[1..]);
      InsertKeepsOrder(s[0], Sorted(s[1..]));
      InsertKeepsSamples(s[0], Sorted(s[1..]));
      assert s == [s[0]] + s[1..];
    }
  }

  lemma {:induction false} RankCounts(s: seq<int>, k: nat)
    requires Increasing(s) && k < |s|
    ensures Below(s, s[k]) <= k < AtMost(s, s[k])
    decreases |s|
  {
    if k > 0 {
      RankCounts(s[1..], k - 1);
    } else {
      NoneBelow(s, s[0] - 1);
    }
  }

  lemma {:induction false} NoneBelow(s: seq<int>, v: int)
    requires forall i :: 0 <= i < |s| ==> s[i] > v
    ensures AtMost(s, v) == 0
    decreases |s|
  {
    if s != [] {
      NoneBelow(s[1..], v);
    }
  }

  lemma {:induction false} CountsGrow(s: seq<int>, v: int, w: int)
    requires v <= w
    ensures AtMost(s, v) <= AtMost(s, w)
    decreases |s|
  {
    if s != [] {
      CountsGrow(s[1..], v, w);
    }
  }

  /** Ninety-five hundredths of the count, rounded up, less one. */
  function RankIndex(n: nat): (k: nat)
    requires n > 0
    ensures k < n && 100 * k < 95 * n <= 100 * (k + 1)
  {
    (n * 95 + 99) / 100 - 1
  }

  function P95(window: seq<int>): int
    requires window != []
  {
    SortedIsRearranged(window);
    Sorted(window)[RankIndex(|window|)]
  }

  /** The reported percentile is the one sample that at least 95% are at or below and fewer than 95% are
      strictly below. */
  lemma P95IsNearestRank(window: seq<int>, v: int)
    requires window != []
    ensures v == P95(window) <==> NearestRank(window, v)
  {
    var p := P95(window);
    P95Ranks(window);
    if v < p {
      CountsGrow(window, v, p - 1);
    } else if v > p {
      CountsGrow(window, p, v - 1);
    }
  }

  ghost predicate NearestRank(window: seq<int>, v: int) {
    v in window && 100 * AtMost(window, v) >= 95 * |window| && 100 * Below(window, v) < 95 * |window|
  }

  lemma P95Ranks(window: seq<int>)
    requires window != []
    ensures NearestRank(window, P95(window))
  {
    var p, k := P95(window), RankIndex(|window|);
    SortedIsRearranged(window);
    SortedCounts(window, p);
    SortedCounts(window, p - 1);
    RankCounts(Sorted(window), k);
    RankIsEnough(|window|, AtMost(window, p), Below(window, p));
    assert Sorted(window)[k] in Sorted(window);
  }

  lemma RankIsEnough(n: nat, atMost: nat, below: nat)
    requires n > 0 && below <= RankIndex(n) < atMost
    ensures 100 * atMost >= 95 * n && 100 * below < 95 * n
  {
  }

  datatype Summary = Summary(samples: nat, last: Option<int>, p95: Option<int>, max: Option<int>)

  class Window {
    var values: seq<int>

    /** Everything ever recorded. */
    ghost var recorded: seq<int>

    ghost predicate Valid()
      reads this
    {
      values == Latest(recorded, WINDOW)
    }

    constructor ()
      ensures Valid() && recorded == [] && values == []
    {
      values, recorded := [], [];
    }

    /** The window goes on holding the latest samples of all that were recorded. */
    method Push(value: int)
      requires Valid()
      modifies this
      ensures Valid() && recorded == old(recorded) + [value]
      ensures values == Pushed(old(values), value)
    {
      LatestGrows(recorded, value, WINDOW);
      if |values| == WINDOW {
        values := values[1..];
      }
      values, recorded := values + [value], recorded + [value];
    }

    /** Statistics of the latest samples: the last one recorded, the nearest-rank percentile and the greatest. */
    method Summarize() returns (r: Summary)
      requires Valid()
      ensures r.samples == Min(WINDOW, |recorded|)
      ensures (r.p95.Some? <==> recorded != []) && (r.max.Some? <==> recorded != [])
      ensures r.last == if recorded == [] then None else Some(recorded[|recorded| - 1])
      ensures r.p95.Some? ==> NearestRank(Latest(recorded, WINDOW), r.p95.value)
      ensures r.max.Some? ==>
                r.max.value in Latest(recorded, WINDOW) && forall v :: v in Latest(recorded, WINDOW) ==> v <= r.max.value
    {
      LatestIsSuffix(recorded, WINDOW);
      if values == [] {
        return Summary(0, None, None, None);
      }
      var sorted := Sorted(values);
      SortedIsRearranged(values);
      P95Ranks(values);
      r := Summary(|sorted|, Some(values[|values| - 1]), Some(sorted[RankIndex(|sorted|)]), Some(sorted[|sorted| - 1]));
      assert r.max.value in sorted;
      forall v | v in values ensures v <= r.max.value {
        assert v in sorted;
      }
    }
  }
}
