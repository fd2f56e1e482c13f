/** Sequences with elements struck out. */
module Subsequences {

  /** `a` is what is left of `b` after striking out elements. */
  predicate Subsequence<T(==)>(a: seq<T>, b: seq<T>) {
    || a == []
    || (b != [] && a[|a| - 1] == b[|b| - 1] && Subsequence(a[..|a| - 1], b[..|b| - 1]))
    || (b != [] && Subsequence(a, b[..|b| - 1]))
  }

  lemma {:induction false} SubsequenceOfMore<T>(a: seq<T>, b: seq<T>, x: T)
    requires Subsequence(a, b)
    ensures Subsequence(a, b + [x]) && Subsequence(a + [x], b + [x])
  {
    assert (b + [x])[..|b|] == b && (a + [x])[..|a|] == a;
  }

  lemma {:induction false} LessIsSubsequence<T>(a: seq<T>, x: T, b: seq<T>)
    requires Subsequence(a + [x], b)
    ensures Subsequence(a, b)
    decreases |b|
  {
    var ax, c, y := a + [x], b[..|b| - 1], b[|b| - 1];
    assert ax[..|ax| - 1] == a && b == c + [y];
    if !Subsequence(a, c) {
      assert Subsequence(ax, c);
      LessIsSubsequence(a, x, c);
    }
    SubsequenceOfMore(a, c, y);
  }

  lemma {:induction false} SubsequenceOfLonger<T>(a: seq<T>, b: seq<T>, c: seq<T>)
    requires Subsequence(a, b)
    ensures Subsequence(a, b + c)
    decreases |c|
  {
    hide Subsequence;
    if c == [] {
      assert b + c == b;
    } else {
      var init, x := c[..|c| - 1], c[|c| - 1];
      SubsequenceOfLonger(a, b, init);
      SubsequenceOfMore(a, b + init, x);
      assert b + c == b + init + [x];
    }
  }
}
