/** Sorting and nearest-rank statistics. */
module Ranks {

  predicate Sorted(s: seq<int>) {
    forall i, j :: 0 <= i <= j < |s| ==> s[i] <= s[j]
  }

  function Insert(x: int, s: seq<int>): (r: seq<int>)
    requires Sorted(s)
    ensures Sorted(r) && |r| == |s| + 1
    ensures forall k :: 0 <= k < |r| ==> r[k] == x || r[k] in s
  {
    if s == [] || x <= s[0] then [x] + s
    else
      var rest := Insert(x, s[1..]);
      assert forall k :: 0 <= k < |rest| ==> s[0] <= rest[k];
      [s[0]] + rest
  }

  function Sort(s: seq<int>): (r: seq<int>)
    ensures Sorted(r) && |r| == |s|
  {
    if s == [] then [] else Insert(s[0], Sort(s[1..]))
  }

  lemma {:induction false} InsertPermutes(x: int, s: seq<int>)
    requires Sorted(s)
    ensures multiset(Insert(x, s)) == multiset{x} + multiset(s)
  {
    if s != [] && s[0] < x {
      assert s == [s[0]] + s[1..];
      InsertPermutes(x, s[1..]);
    }
  }

  lemma {:induction false} SortPermutes(s: seq<int>)
    ensures multiset(Sort(s)) == multiset(s)
  {
    if s != [] {
      assert s == [s[0]] + s[1..];
      SortPermutes(s[1..]);
      InsertPermutes(s[0], Sort(s[1..]));
    }
  }

  /** How many elements are at most `v`. */
  function AtMost(s: seq<int>, v: int): nat {
    if s == [] then 0 else (if s[0] <= v then 1 else 0) + AtMost(s[1..], v)
  }

  lemma {:induction false} AtMostOfMore(s: seq<int>, x: int, v: int)
    ensures AtMost(s + [x], v) == AtMost(s, v) + (if x <= v then 1 else 0)
  {
    if s == [] {
      assert s + [x] == [x];
    } else {
      assert (s + [x])[1..] == s[1..] + [x];
      AtMostOfMore(s[1..], x, v);
    }
  }

  lemma {:induction false} AtMostInserted(x: int, s: seq<int>, v: int)
    requires Sorted(s)
    ensures AtMost(Insert(x, s), v) == AtMost(s, v) + (if x <= v then 1 else 0)
  {
    if s == [] || x <= s[0] {
      assert ([x] + s)[1..] == s;
    } else {
      var rest := Insert(x, s[1..]);
      assert ([s[0]] + rest)[1..] == rest;
      AtMostInserted(x, s[1..], v);
    }
  }

  lemma {:induction false} AtMostSorted(s: seq<int>, v: int)
    ensures AtMost(Sort(s), v) == AtMost(s, v)
  {
    if s != [] {
      AtMostSorted(s[1..], v);
      AtMostInserted(s[0], Sort(s[1..]), v);
    }
  }

  lemma {:induction false} AtMostBounds(s: seq<int>, v: int)
    ensures AtMost(s, v) <= |s|
    ensures (forall k :: 0 <= k < |s| ==> v < s[k]) ==> AtMost(s, v) == 0
  {
    if s != [] {
      assert forall k :: 0 <= k < |s| - 1 ==> s[1..][k] == s[k + 1];
      AtMostBounds(s[1..], v);
    }
  }

  /** In a sorted sequence the element of rank `r` is at most `v` exactly when `r` elements are. */
  lemma {:induction false} RankAtMost(s: seq<int>, r: nat, v: int)
    requires Sorted(s) && 1 <= r <= |s|
    ensures s[r - 1] <= v <==> r <= AtMost(s, v)
  {
    AtMostBounds(s[1..], v);
    assert forall k :: 0 <= k < |s| - 1 ==> s[1..][k] == s[k + 1];
    if s[0] <= v && r > 1 {
      RankAtMost(s[1..], r - 1, v);
    }
  }

  /** The nearest rank of the `p`-th percentile. */
  function NearestRank(count: nat, p: nat): nat {
    (count * p + 99) / 100
  }

  lemma NearestRankInRange(count: nat, p: nat)
    requires count > 0 && 0 < p <= 100
    ensures 1 <= NearestRank(count, p) <= count
  {
    assert count * p <= count * 100;
    assert count * p >= 1;
  }

  /** The nearest-rank percentile of some values. */
  function Percentile(s: seq<int>, p: nat): int
    requires s != [] && 0 < p <= 100
  {
    NearestRankInRange(|s|, p);
    Sort(s)[NearestRank(|s|, p) - 1]
  }

  lemma PercentileIs(s: seq<int>, p: nat)
    requires s != [] && 0 < p <= 100
    ensures Percentile(s, p) in s
    ensures forall v :: Percentile(s, p) <= v <==> NearestRank(|s|, p) <= AtMost(s, v)
  {
    NearestRankInRange(|s|, p);
    var r := NearestRank(|s|, p);
    SortPermutes(s);
    assert Sort(s)[r - 1] in multiset(Sort(s));
    forall v
      ensures Percentile(s, p) <= v <==> r <= AtMost(s, v)
    {
      RankAtMost(Sort(s), r, v);
      AtMostSorted(s, v);
    }
  }

  lemma PercentilesAreOrdered(s: seq<int>, p: nat, q: nat)
    requires s != [] && 0 < p <= q <= 100
    ensures Percentile(s, p) <= Percentile(s, q)
  {
    NearestRankInRange(|s|, p);
    NearestRankInRange(|s|, q);
    assert |s| * p <= |s| * q;
  }
}
