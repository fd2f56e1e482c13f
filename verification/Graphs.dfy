/** Directed graphs over names, cycles, and the two ways of showing that there is one or none. */
module Graphs {

  /** The names that each name refers to. */
  type Graph = map<string, set<string>>

  predicate Edge(g: Graph, x: string, y: string) {
    x in g && y in g[x]
  }

  predicate Walk(g: Graph, p: seq<string>) {
    |p| > 0 && forall i :: 0 <= i < |p| - 1 ==> Edge(g, p[i], p[i + 1])
  }

  predicate Cycle(g: Graph, p: seq<string>) {
    Walk(g, p) && |p| >= 2 && p[0] == p[|p| - 1]
  }

  ghost predicate Acyclic(g: Graph) {
    forall p :: !Cycle(g, p)
  }

  ghost predicate HasPredecessor(g: Graph, s: set<string>, x: string) {
    exists y :: y in s && Edge(g, y, x)
  }

  ghost predicate HasSuccessor(g: Graph, s: set<string>, x: string) {
    exists y :: y in s && Edge(g, x, y)
  }

  /** Every member of the set has a predecessor and a successor in the set. */
  ghost predicate Core(g: Graph, s: set<string>) {
    forall x :: x in s ==> HasPredecessor(g, s, x) && HasSuccessor(g, s, x)
  }

  function Elements(p: seq<string>): set<string> {
    set x | x in p
  }

  predicate Distinct(p: seq<string>) {
    forall i, j :: 0 <= i < j < |p| ==> p[i] != p[j]
  }

  lemma {:induction false} DistinctCount(p: seq<string>)
    requires Distinct(p)
    ensures |Elements(p)| == |p|
  {
    if p != [] {
      var q := p[..|p| - 1];
      DistinctCount(q);
      assert Elements(p) == Elements(q) + {p[|p| - 1]};
    }
  }

  lemma {:induction false} SubsetCount(s: set<string>, t: set<string>)
    requires s <= t
    ensures |s| <= |t|
  {
    assert t == s + (t - s);
  }

  lemma Pigeonhole(p: seq<string>, s: set<string>)
    requires Elements(p) <= s && |p| > |s|
    ensures !Distinct(p)
  {
    if Distinct(p) {
      DistinctCount(p);
      SubsetCount(Elements(p), s);
    }
  }

  /** A walk that visits some name twice contains a cycle. */
  lemma RepeatMakesCycle(g: Graph, p: seq<string>) returns (c: seq<string>)
    requires Walk(g, p) && !Distinct(p)
    ensures Cycle(g, c) && Elements(c) <= Elements(p)
  {
    var i, j :| 0 <= i < j < |p| && p[i] == p[j];
    c := p[i..j + 1];
  }

  /** Where everybody has a predecessor, one can walk backwards as long as one likes. */
  lemma {:induction false} WalkBackwards(g: Graph, s: set<string>, n: nat) returns (p: seq<string>)
    requires s != {} && forall x :: x in s ==> HasPredecessor(g, s, x)
    ensures Walk(g, p) && |p| == n + 1 && Elements(p) <= s
  {
    if n == 0 {
      var x :| x in s;
      p := [x];
    } else {
      var q := WalkBackwards(g, s, n - 1);
      assert q[0] in Elements(q);
      assert HasPredecessor(g, s, q[0]);
      var y :| y in s && Edge(g, y, q[0]);
      p := [y] + q;
    }
  }

  lemma PredecessorsMakeCycle(g: Graph, s: set<string>) returns (c: seq<string>)
    requires s != {} && forall x :: x in s ==> HasPredecessor(g, s, x)
    ensures Cycle(g, c) && Elements(c) <= s
  {
    var p := WalkBackwards(g, s, |s|);
    Pigeonhole(p, s);
    c := RepeatMakesCycle(g, p);
  }

  /** Backwards from a member of a core one comes to a cycle. */
  lemma {:induction false} WalkBackTo(g: Graph, s: set<string>, x: string, n: nat) returns (p: seq<string>)
    requires Core(g, s) && x in s
    ensures Walk(g, p) && |p| == n + 1 && Elements(p) <= s && p[n] == x
    decreases n
  {
    hide HasPredecessor; hide HasSuccessor;
    if n == 0 {
      p := [x];
    } else {
      var y := SomePredecessor(g, s, x);
      var q := WalkBackTo(g, s, y, n - 1);
      p := q + [x];
    }
  }

  lemma SomePredecessor(g: Graph, s: set<string>, x: string) returns (y: string)
    requires HasPredecessor(g, s, x)
    ensures y in s && Edge(g, y, x)
  {
    y :| y in s && Edge(g, y, x);
  }

  lemma SomeSuccessor(g: Graph, s: set<string>, x: string) returns (y: string)
    requires HasSuccessor(g, s, x)
    ensures y in s && Edge(g, x, y)
  {
    y :| y in s && Edge(g, x, y);
  }

  lemma {:induction false} WalkOnFrom(g: Graph, s: set<string>, x: string, n: nat) returns (p: seq<string>)
    requires Core(g, s) && x in s
    ensures Walk(g, p) && |p| == n + 1 && Elements(p) <= s && p[0] == x
    decreases n
  {
    hide HasPredecessor; hide HasSuccessor;
    if n == 0 {
      p := [x];
    } else {
      var y := SomeSuccessor(g, s, x);
      var q := WalkOnFrom(g, s, y, n - 1);
      p := [x] + q;
    }
  }

  /** Every member of a core lies on a walk from a cycle to a cycle. */
  lemma CoreLiesBetweenCycles(g: Graph, s: set<string>, x: string)
    returns (c: seq<string>, p: seq<string>, q: seq<string>, d: seq<string>)
    requires Core(g, s) && x in s
    ensures Cycle(g, c) && Walk(g, p) && p[0] == c[0] && p[|p| - 1] == x
    ensures Cycle(g, d) && Walk(g, q) && q[0] == x && q[|q| - 1] == d[0]
  {
    hide Core;
    var back := WalkBackTo(g, s, x, |s|);
    Pigeonhole(back, s);
    var i, j :| 0 <= i < j < |back| && back[i] == back[j];
    c, p := back[i..j + 1], back[i..];
    var on := WalkOnFrom(g, s, x, |s|);
    Pigeonhole(on, s);
    var k, l :| 0 <= k < l < |on| && on[k] == on[l];
    d, q := on[k..l + 1], on[..k + 1];
  }

  lemma CycleIsCore(g: Graph, p: seq<string>)
    requires Cycle(g, p)
    ensures Core(g, Elements(p))
  {
    var s := Elements(p);
    forall x | x in s ensures HasPredecessor(g, s, x) && HasSuccessor(g, s, x) {
      var i :| 0 <= i < |p| && p[i] == x;
      var before := if i == 0 then |p| - 2 else i - 1;
      var after := if i == |p| - 1 then 1 else i + 1;
      assert p[before] in s && Edge(g, p[before], x);
      assert p[after] in s && Edge(g, x, p[after]);
    }
  }

  /** Every edge goes up in rank. */
  ghost predicate Ranks(g: Graph, rank: map<string, int>) {
    forall x, y :: Edge(g, x, y) ==> x in rank && y in rank && rank[x] < rank[y]
  }

  lemma {:induction false} WalkGoesUp(g: Graph, rank: map<string, int>, p: seq<string>)
    requires Ranks(g, rank) && Walk(g, p) && |p| >= 2
    ensures p[0] in rank && p[|p| - 1] in rank && rank[p[0]] < rank[p[|p| - 1]]
  {
    var q := p[..|p| - 1];
    assert Edge(g, p[|p| - 2], p[|p| - 1]);
    if |q| >= 2 {
      WalkGoesUp(g, rank, q);
    }
  }

  lemma RankedIsAcyclic(g: Graph, rank: map<string, int>)
    requires Ranks(g, rank)
    ensures Acyclic(g)
  {
    forall p ensures !Cycle(g, p) {
      if Cycle(g, p) {
        WalkGoesUp(g, rank, p);
      }
    }
  }
}
