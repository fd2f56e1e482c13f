/** The miss counter of a pair of probes: three misses in a row while the other side answers. */
module Misses {

  type Time = int

  /** One round: whether the watched side and the other side answered, and when. */
  datatype Round = Round(a: bool, b: bool, at: Time)

  predicate IsMiss(r: Round) {
    !r.a && r.b
  }

  /** How many of the last rounds are misses, without a break. */
  function Streak(rounds: seq<Round>): (n: nat)
    ensures n <= |rounds|
  {
    if rounds == [] || !IsMiss(rounds[|rounds| - 1]) then 0 else Streak(rounds[..|rounds| - 1]) + 1
  }

  /** The last `n` rounds are misses exactly for `n` up to the streak. */
  lemma {:induction false} StreakIsLongest(rounds: seq<Round>, n: nat)
    requires n <= |rounds|
    ensures n <= Streak(rounds) <==> forall k :: |rounds| - n <= k < |rounds| ==> IsMiss(rounds[k])
  {
    if n > 0 {
      var init := rounds[..|rounds| - 1];
      StreakIsLongest(init, n - 1);
      assert forall k :: 0 <= k < |init| ==> init[k] == rounds[k];
      assert IsMiss(rounds[|rounds| - 1]) || !IsMiss(rounds[|rounds| - 1]);
    }
  }

  class AntiMiss {
    var count: nat
    var first: Time
    ghost var rounds: seq<Round>

    /** `first` is the time of the first round of the streak. */
    ghost predicate Valid()
      reads this
    {
      count == Streak(rounds) && (count > 0 ==> first == rounds[|rounds| - count].at)
    }

    constructor ()
      ensures Valid() && rounds == []
    {
      count, first, rounds := 0, 0, [];
    }

    method Update(a: bool, b: bool, at: Time) returns (missing: bool)
      requires Valid()
      modifies this
      ensures Valid() && rounds == old(rounds) + [Round(a, b, at)]
      ensures missing <==> |rounds| >= 3 && forall k :: |rounds| - 3 <= k < |rounds| ==> IsMiss(rounds[k])
    {
      rounds := rounds + [Round(a, b, at)];
      assert rounds[..|rounds| - 1] == old(rounds);
      if |rounds| >= 3 {
        StreakIsLongest(rounds, 3);
      }
      if a || !b {
        count, first := 0, 0;
        return false;
      }
      if count == 0 {
        first := at;
      }
      count := count + 1;
      return count >= 3;
    }
  }
}
