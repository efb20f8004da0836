/** Options, saturating machine arithmetic, and the key order of the server's sorted maps.
    Identifiers are natural numbers: the source compares UUIDs only for equality and order. */
module Ordered {

  datatype Option<+T> = None | Some(value: T)

  /** The largest 64-bit tick or time the server can hold. */
  const U64_MAX: nat := 0xFFFF_FFFF_FFFF_FFFF

  function SaturatingSub(a: nat, b: nat): nat {
    if a >= b then a - b else 0
  }

  function SaturatingAdd(a: nat, b: nat): nat {
    if a + b <= U64_MAX then a + b else U64_MAX
  }

  function Min(a: nat, b: nat): nat {
    if a <= b then a else b
  }

  function Max(a: nat, b: nat): nat {
    if a >= b then a else b
  }

  /** The last n elements, or all of a shorter sequence. */
  ghost function Latest<T>(s: seq<T>, n: nat): (r: seq<T>)
    ensures |r| == if |s| <= n then |s| else n
  {
    if |s| <= n then s else Latest(s[1..], n)
  }

  lemma {:induction false} LatestIsSuffix<T>(s: seq<T>, n: nat)
    ensures |s| >= n ==> Latest(s, n) == s[|s| - n..]
  {
    if |s| > n {
      LatestIsSuffix(s[1..], n);
    }
  }

  lemma LatestGrows<T>(s: seq<T>, x: T, n: nat)
    requires n > 0
    ensures Latest(s + [x], n) == (if |s| >= n then Latest(s, n)[1..] else Latest(s, n)) + [x]
  {
    var grown := s + [x];
    LatestIsSuffix(s, n);
    LatestIsSuffix(grown, n);
    if |s| >= n {
      assert grown[|grown| - n..] == s[|s| - n + 1..] + [x];
    }
  }

  ghost predicate Ascending(s: seq<nat>) {
    forall i, j :: 0 <= i < j < |s| ==> s[i] < s[j]
  }

  lemma HasLeast(s: set<nat>)
    requires s != {}
    ensures exists k :: k in s && forall x :: x in s ==> k <= x
    decreases |s|
  {
    var y :| y in s;
    var rest := s - {y};
    if rest == {} {
      assert s == {y};
    } else {
      HasLeast(rest);
      var m :| m in rest && forall x :: x in rest ==> m <= x;
      var k := Min(m, y);
      assert k in s;
      forall x | x in s ensures k <= x {
        assert x == y || x in rest;
      }
    }
  }

  function Least(s: set<nat>): (k: nat)
    requires s != {}
    ensures k in s && forall x :: x in s ==> k <= x
  {
    HasLeast(s);
    var k :| k in s && forall x :: x in s ==> k <= x;
    k
  }

  /** The order in which a sorted map visits its keys. */
  function SortedKeys(s: set<nat>): (r: seq<nat>)
    ensures Ascending(r)
    ensures forall x :: x in r <==> x in s
    decreases |s|
  {
    if s == {} then []
    else
      var k := Least(s);
      var rest := SortedKeys(s - {k});
      assert forall i :: 0 <= i < |rest| ==> rest[i] in rest && k < rest[i];
      [k] + rest
  }
}
