/** The receive-cadence window: a histogram of gaps whose percentiles are the true ones, rounded up to a bound. */
module Cadence {
  import opened Options
  import opened Ranks

  /** Nanoseconds; a zero time is an absent one. */
  type Time = int

  const MILLISECOND := 1_000_000
  const SECOND := 1_000_000_000
  const WINDOW := 10_000_000_000

  /** Upper bounds of the bins, in milliseconds. */
  const BOUNDS: seq<int> := [1, 2, 4, 8, 12, 16, 20, 25, 33, 50, 75, 100, 150, 250, 500, 1000]

  const NO_BINS: seq<nat> := [0, 0, 0, 0, 0, 0, 0, 0, 0, 0, 0, 0, 0, 0, 0, 0]

  predicate Fits(gap: int, i: nat)
    requires i < |BOUNDS|
  {
    gap <= BOUNDS[i] * MILLISECOND
  }

  /** `i` is the first bin whose bound is not below the gap. */
  predicate IsBin(gap: int, i: nat) {
    i < |BOUNDS| && Fits(gap, i) && forall j :: 0 <= j < i ==> !Fits(gap, j)
  }

  lemma BoundsGrow(i: nat, j: nat)
    requires i <= j < |BOUNDS|
    ensures BOUNDS[i] <= BOUNDS[j]
  {
  }

  /** Every accepted gap has one bin. */
  lemma BinIsUnique(gap: int, i: nat, j: nat)
    requires IsBin(gap, i) && IsBin(gap, j)
    ensures i == j
  {
  }

  /** The sum of the first `n` bins. */
  function Upto(bins: seq<nat>, n: nat): nat
    requires n <= |bins|
  {
    if n == 0 then 0 else Upto(bins, n - 1) + bins[n - 1]
  }

  /** Bins up to a bound hold as many gaps as there are at most that bound. */
  predicate Counts(bins: seq<nat>, gaps: seq<int>) {
    && |bins| == |BOUNDS|
    && (forall n :: 0 <= n < |BOUNDS| ==> Upto(bins, n + 1) == AtMost(gaps, BOUNDS[n] * MILLISECOND))
    && (forall k :: 0 <= k < |gaps| ==> 0 <= gaps[k] <= SECOND)
  }

  lemma {:induction false} UptoOfOneMore(bins: seq<nat>, i: nat, n: nat)
    requires n <= |bins| && i < |bins|
    ensures Upto(bins[i := bins[i] + 1], n) == Upto(bins, n) + (if i < n then 1 else 0)
  {
    if n > 0 {
      UptoOfOneMore(bins, i, n - 1);
    }
  }

  lemma {:induction false} NoBinsCountNothing(n: nat)
    requires n <= |BOUNDS|
    ensures Upto(NO_BINS, n) == 0
  {
    if n > 0 {
      NoBinsCountNothing(n - 1);
    }
  }

  lemma CountsNothing()
    ensures Counts(NO_BINS, [])
  {
    forall n | 0 <= n < |BOUNDS|
      ensures Upto(NO_BINS, n + 1) == AtMost([], BOUNDS[n] * MILLISECOND)
    {
      NoBinsCountNothing(n + 1);
    }
  }

  lemma BinIsFit(gap: int, i: nat, n: nat)
    requires IsBin(gap, i) && n < |BOUNDS|
    ensures Fits(gap, n) <==> i < n + 1
  {
    if i <= n {
      BoundsGrow(i, n);
    }
  }

  lemma CountsOneMore(bins: seq<nat>, gaps: seq<int>, gap: int, i: nat)
    requires Counts(bins, gaps) && 0 <= gap <= SECOND && IsBin(gap, i)
    ensures Counts(bins[i := bins[i] + 1], gaps + [gap])
  {
    var bins' := bins[i := bins[i] + 1];
    forall n | 0 <= n < |BOUNDS|
      ensures Upto(bins', n + 1) == AtMost(gaps + [gap], BOUNDS[n] * MILLISECOND)
    {
      UptoOfOneMore(bins, i, n + 1);
      AtMostOfMore(gaps, gap, BOUNDS[n] * MILLISECOND);
      BinIsFit(gap, i, n);
    }
  }

  predicate Short(bins: seq<nat>, j: nat, rank: nat)
    requires j < |bins|
  {
    Upto(bins, j + 1) < rank
  }

  /** The first bin at which the running sum reaches the rank is the bin of the gap of that rank. */
  lemma ReachedIsPercentile(bins: seq<nat>, gaps: seq<int>, p: nat, i: nat)
    requires Counts(bins, gaps) && gaps != [] && 0 < p <= 100 && i < |BOUNDS|
    requires NearestRank(|gaps|, p) <= Upto(bins, i + 1)
    requires forall j :: 0 <= j < i ==> Short(bins, j, NearestRank(|gaps|, p))
    ensures IsBin(Percentile(gaps, p), i)
  {
    PercentileIs(gaps, p);
    assert Percentile(gaps, p) <= BOUNDS[i] * MILLISECOND;
    forall j | 0 <= j < i
      ensures !Fits(Percentile(gaps, p), j)
    {
      assert Short(bins, j, NearestRank(|gaps|, p));
      assert !(Percentile(gaps, p) <= BOUNDS[j] * MILLISECOND);
    }
  }

  lemma RankIsReached(bins: seq<nat>, gaps: seq<int>, p: nat)
    requires Counts(bins, gaps) && gaps != [] && 0 < p <= 100
    ensures NearestRank(|gaps|, p) <= Upto(bins, |BOUNDS|)
  {
    PercentileIs(gaps, p);
    assert Percentile(gaps, p) <= BOUNDS[15] * MILLISECOND;
    assert Upto(bins, 15 + 1) == AtMost(gaps, BOUNDS[15] * MILLISECOND);
  }

  /** The spread between two percentiles, capped. */
  function Spread(high: int, low: int): int {
    if high - low < 100 then high - low else 100
  }

  /** `spread` is what the gaps of a window amount to. */
  predicate IsSpread(gaps: seq<int>, spread: int)
    requires gaps != []
  {
    exists i, j :: 0 <= i < |BOUNDS| && 0 <= j < |BOUNDS| &&
      IsBin(Percentile(gaps, 95), i) && IsBin(Percentile(gaps, 50), j) && spread == Spread(BOUNDS[i], BOUNDS[j])
  }

  /** A spread is between 0 and 100 milliseconds. */
  lemma SpreadIsBounded(gaps: seq<int>, spread: int)
    requires gaps != [] && IsSpread(gaps, spread)
    ensures 0 <= spread <= 100
  {
    var i, j :| 0 <= i < |BOUNDS| && 0 <= j < |BOUNDS| &&
      IsBin(Percentile(gaps, 95), i) && IsBin(Percentile(gaps, 50), j) && spread == Spread(BOUNDS[i], BOUNDS[j]);
    PercentilesAreOrdered(gaps, 50, 95);
    if i < j {
      assert Fits(Percentile(gaps, 50), i);
      assert false;
    }
    BoundsGrow(j, i);
  }

  class CadenceWindow {
    var start: Option<Time>
    var bins: seq<nat>
    var count: nat
    ghost var gaps: seq<int>

    ghost predicate Valid()
      reads this
    {
      count == |gaps| && Counts(bins, gaps) && (start.None? ==> gaps == [])
    }

    constructor ()
      ensures Valid() && gaps == [] && start.None?
    {
      start, bins, count, gaps := None, NO_BINS, 0, [];
      new;
      CountsNothing();
    }

    method Reset()
      modifies this
      ensures Valid() && gaps == [] && start.None?
    {
      start, bins, count, gaps := None, NO_BINS, 0, [];
      CountsNothing();
    }

    /** The nearest-rank percentile of the gaps, rounded up to a bound. */
    method PercentileBound(p: nat) returns (bound: int)
      requires Valid() && count > 0 && 0 < p <= 100
      ensures exists i :: 0 <= i < |BOUNDS| && IsBin(Percentile(gaps, p), i) && bound == BOUNDS[i]
    {
      var target := (count * p + 99) / 100;
      var sum := 0;
      for i := 0 to |bins|
        invariant sum == Upto(bins, i)
        invariant forall j :: 0 <= j < i && j < |BOUNDS| - 1 ==> Short(bins, j, target)
      {
        sum := sum + bins[i];
        if sum >= target {
          ReachedIsPercentile(bins, gaps, p, i);
          return BOUNDS[i];
        }
      }
      RankIsReached(bins, gaps, p);
      ReachedIsPercentile(bins, gaps, p, |BOUNDS| - 1);
      return BOUNDS[|BOUNDS| - 1];
    }

    /** Puts a gap into the first bin whose bound is not below it. */
    method Put(gap: int)
      requires Valid() && 0 <= gap <= SECOND && start.Some?
      modifies `bins, `count, `gaps
      ensures Valid() && gaps == old(gaps) + [gap]
    {
      var i := 0;
      while gap > BOUNDS[i] * MILLISECOND
        invariant 0 <= i < |BOUNDS|
        invariant forall j :: 0 <= j < i ==> !Fits(gap, j)
        decreases |BOUNDS| - i
      {
        i := i + 1;
      }
      CountsOneMore(bins, gaps, gap, i);
      bins := bins[i := bins[i] + 1];
      count := count + 1;
      gaps := gaps + [gap];
    }

    /**
     A gap without recent traffic both ways empties the window.  A window of ten seconds yields
     the spread of its gaps if it has at least 32 of them, and is emptied.
     */
    method Observe(now: Time, previous: Option<Time>, lastWrite: Option<Time>) returns (spread: Option<int>)
      requires Valid()
      modifies this
      ensures Valid()
      ensures var accepted := previous.Some? && lastWrite.Some? && now - lastWrite.value <= SECOND
                              && 0 <= now - previous.value <= SECOND;
        if !accepted then spread == None && gaps == [] && start.None?
        else
          var began := if old(start).Some? then old(start) else previous;
          var seen := old(gaps) + [now - previous.value];
          if now - began.value < WINDOW then spread == None && gaps == seen && start == began
          else
            && gaps == [] && start.None?
            && (spread.Some? <==> |seen| >= 32)
            && (spread.Some? ==> IsSpread(seen, spread.value) && 0 <= spread.value <= 100)
    {
      if previous.None? || lastWrite.None? || now - lastWrite.value > SECOND
         || now - previous.value < 0 || now - previous.value > SECOND {
        Reset();
        return None;
      }
      if start.None? {
        start := previous;
      }
      Put(now - previous.value);
      if now - start.value < WINDOW {
        return None;
      }
      if count < 32 {
        Reset();
        return None;
      }
      var high := PercentileBound(95);
      var low := PercentileBound(50);
      ghost var seen := gaps;
      assert IsSpread(seen, Spread(high, low));
      SpreadIsBounded(seen, Spread(high, low));
      Reset();
      return Some(Spread(high, low));
    }
  }
}
