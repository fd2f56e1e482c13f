/** Proxy groups, the graph of their references, and the counts that the dependency sort keeps. */
module GroupGraph {
  import opened Options
  import opened Graphs

  /** One entry of the `proxy-groups` list; `valid` says that it decodes, `rest` stands for its other options. */
  datatype Group = Group(name: string, proxies: seq<string>, valid: bool, rest: nat)

  /** `data` is absent for a name that is only referred to. */
  datatype Node = Node(indegree: int, data: Option<Group>, outdegree: int, from: seq<string>)

  datatype BuildError = BadGroup(name: string) | Duplicate(name: string)

  function Names(gs: seq<Group>): set<string> {
    set i | 0 <= i < |gs| :: gs[i].name
  }

  function Referenced(gs: seq<Group>): set<string> {
    set i, p | 0 <= i < |gs| && p in gs[i].proxies :: p
  }

  function Nodes(gs: seq<Group>): set<string> {
    Names(gs) + Referenced(gs)
  }

  function References(gs: seq<Group>, x: string): set<string> {
    set i, p | 0 <= i < |gs| && gs[i].name == x && p in gs[i].proxies :: p
  }

  /** The dependency graph that a list of groups describes. */
  function GraphOf(gs: seq<Group>): Graph {
    map x | x in Names(gs) :: References(gs, x)
  }

  predicate DistinctNames(gs: seq<Group>) {
    forall i, j :: 0 <= i < j < |gs| ==> gs[i].name != gs[j].name
  }

  /** The first entry that the list is refused for. */
  function FirstError(gs: seq<Group>): Option<BuildError> {
    if gs == [] then None
    else
      var init, last := gs[..|gs| - 1], gs[|gs| - 1];
      var e := FirstError(init);
      if e.Some? then e
      else if !last.valid then Some(BadGroup(last.name))
      else if last.name in Names(init) then Some(Duplicate(last.name))
      else None
  }

  lemma {:induction false} NoErrorMeansDistinct(gs: seq<Group>)
    ensures FirstError(gs).None? <==> DistinctNames(gs) && forall i :: 0 <= i < |gs| ==> gs[i].valid
  {
    if gs != [] {
      var init, last := gs[..|gs| - 1], gs[|gs| - 1];
      NoErrorMeansDistinct(init);
      assert last.name in Names(init) <==> exists i :: 0 <= i < |init| && init[i].name == last.name;
      if DistinctNames(gs) {
        assert DistinctNames(init);
      }
    }
  }

  /** The group of a given name. */
  function Find(gs: seq<Group>, n: string): Option<Group> {
    if gs == [] then None
    else if gs[|gs| - 1].name == n then Some(gs[|gs| - 1])
    else Find(gs[..|gs| - 1], n)
  }

  function ProxiesOf(gs: seq<Group>, n: string): seq<string> {
    match Find(gs, n)
    case None => []
    case Some(g) => g.proxies
  }

  lemma {:induction false} FindFinds(gs: seq<Group>, n: string)
    requires DistinctNames(gs)
    ensures Find(gs, n).Some? <==> n in Names(gs)
    ensures Find(gs, n).Some? ==> Find(gs, n).value in gs && Find(gs, n).value.name == n
    ensures forall i :: 0 <= i < |gs| && gs[i].name == n ==> Find(gs, n) == Some(gs[i])
  {
    if gs != [] && gs[|gs| - 1].name != n {
      var init := gs[..|gs| - 1];
      FindFinds(init, n);
      if n in Names(gs) {
        var i :| 0 <= i < |gs| && gs[i].name == n;
        assert init[i].name == n;
      }
    }
  }

  lemma EdgeMeansProxy(gs: seq<Group>, x: string, y: string)
    requires DistinctNames(gs)
    ensures Edge(GraphOf(gs), x, y) <==> y in ProxiesOf(gs, x)
  {
    FindFinds(gs, x);
    if Edge(GraphOf(gs), x, y) {
      var i :| 0 <= i < |gs| && gs[i].name == x && y in gs[i].proxies;
    }
  }

  // ----- counting references -----

  /** How many references to `n` the groups named in `alive` hold, with repetitions. */
  function InCount(gs: seq<Group>, alive: set<string>, n: string): nat {
    if gs == [] then 0
    else
      InCount(gs[..|gs| - 1], alive, n) +
      if gs[|gs| - 1].name in alive then multiset(gs[|gs| - 1].proxies)[n] else 0
  }

  lemma {:induction false} InCountIrrelevant(gs: seq<Group>, alive: set<string>, alive': set<string>, n: string)
    requires alive * Names(gs) == alive' * Names(gs)
    ensures InCount(gs, alive, n) == InCount(gs, alive', n)
  {
    if gs != [] {
      var init, last := gs[..|gs| - 1], gs[|gs| - 1];
      assert last.name in Names(gs);
      assert last.name in alive <==> last.name in alive * Names(gs);
      assert last.name in alive' <==> last.name in alive' * Names(gs);
      assert Names(init) <= Names(gs);
      assert alive * Names(init) == (alive * Names(gs)) * Names(init);
      assert alive' * Names(init) == (alive' * Names(gs)) * Names(init);
      InCountIrrelevant(init, alive, alive', n);
    }
  }

  /** A removed name takes its own references along. */
  lemma {:induction false} InCountRemove(gs: seq<Group>, alive: set<string>, x: string, n: string)
    requires DistinctNames(gs) && x in alive
    ensures InCount(gs, alive, n) == InCount(gs, alive - {x}, n) + multiset(ProxiesOf(gs, x))[n]
  {
    if gs != [] {
      var init, last := gs[..|gs| - 1], gs[|gs| - 1];
      if last.name == x {
        assert x !in Names(init);
        InCountIrrelevant(init, alive, alive - {x}, n);
      } else {
        InCountRemove(init, alive, x, n);
        assert ProxiesOf(gs, x) == ProxiesOf(init, x);
      }
    }
  }

  lemma {:induction false} InCountZero(gs: seq<Group>, alive: set<string>, n: string)
    requires DistinctNames(gs)
    ensures InCount(gs, alive, n) == 0 <==> forall x :: x in alive ==> n !in ProxiesOf(gs, x)
  {
    if gs != [] {
      var init, last := gs[..|gs| - 1], gs[|gs| - 1];
      InCountZero(init, alive, n);
      assert last.name !in Names(init);
      FindFinds(init, last.name);
      forall x | x != last.name ensures ProxiesOf(gs, x) == ProxiesOf(init, x) {
      }
      assert ProxiesOf(gs, last.name) == last.proxies;
      if InCount(gs, alive, n) == 0 {
        forall x | x in alive ensures n !in ProxiesOf(gs, x) {
          if x == last.name {
            assert n !in multiset(last.proxies);
          }
        }
      } else if InCount(init, alive, n) == 0 {
        assert n in multiset(last.proxies);
        assert last.name in alive && n in ProxiesOf(gs, last.name);
      } else {
        var x :| x in alive && n in ProxiesOf(init, x);
        assert x != last.name;
        assert n in ProxiesOf(gs, x);
      }
    }
  }

  /** How many entries of `ps` are in `alive`, with repetitions. */
  function OutCount(ps: seq<string>, alive: set<string>): nat {
    if ps == [] then 0
    else OutCount(ps[..|ps| - 1], alive) + if ps[|ps| - 1] in alive then 1 else 0
  }

  lemma {:induction false} OutCountRemove(ps: seq<string>, alive: set<string>, x: string)
    requires x in alive
    ensures OutCount(ps, alive) == OutCount(ps, alive - {x}) + multiset(ps)[x]
  {
    if ps != [] {
      var init, last := ps[..|ps| - 1], ps[|ps| - 1];
      OutCountRemove(init, alive, x);
      assert ps == init + [last];
    }
  }

  lemma {:induction false} OutCountZero(ps: seq<string>, alive: set<string>)
    ensures OutCount(ps, alive) == 0 <==> forall p :: p in ps ==> p !in alive
  {
    if ps != [] {
      var init, last := ps[..|ps| - 1], ps[|ps| - 1];
      OutCountZero(init, alive);
      assert ps == init + [last];
    }
  }

  lemma {:induction false} OutCountAll(ps: seq<string>, alive: set<string>)
    requires Elements(ps) <= alive
    ensures OutCount(ps, alive) == |ps|
  {
    if ps != [] {
      assert ps[|ps| - 1] in Elements(ps);
      assert Elements(ps[..|ps| - 1]) <= Elements(ps);
      OutCountAll(ps[..|ps| - 1], alive);
    }
  }

  // ----- groups in the order in which names are removed -----

  /** The groups among the given names, in that order. */
  function GroupsOf(gs: seq<Group>, ns: seq<string>): seq<Group> {
    if ns == [] then []
    else
      GroupsOf(gs, ns[..|ns| - 1]) +
      match Find(gs, ns[|ns| - 1])
      case None => []
      case Some(g) => [g]
  }

  predicate NoRepeats(s: seq<Group>) {
    forall i, j :: 0 <= i < j < |s| ==> s[i] != s[j]
  }

  lemma {:induction false} NoRepeatsCount(s: seq<Group>, m: Group)
    requires NoRepeats(s)
    ensures multiset(s)[m] == if m in s then 1 else 0
  {
    if s != [] {
      var init, last := s[..|s| - 1], s[|s| - 1];
      assert s == init + [last];
      NoRepeatsCount(init, m);
    }
  }

  lemma {:induction false} GroupsOfNames(gs: seq<Group>, ns: seq<string>)
    requires DistinctNames(gs) && Distinct(ns)
    ensures forall g :: g in GroupsOf(gs, ns) <==> g in gs && g.name in ns
    ensures NoRepeats(GroupsOf(gs, ns))
  {
    if ns != [] {
      var init, last := ns[..|ns| - 1], ns[|ns| - 1];
      assert ns == init + [last];
      GroupsOfNames(gs, init);
      FindFinds(gs, last);
    }
  }

  lemma DistinctNamesNoRepeats(gs: seq<Group>)
    requires DistinctNames(gs)
    ensures NoRepeats(gs)
  {
  }

  /** A permutation of groups with distinct names has distinct names. */
  lemma DistinctNamesPermute(gs: seq<Group>, b: seq<Group>)
    requires DistinctNames(gs) && multiset(b) == multiset(gs)
    ensures DistinctNames(b)
  {
    DistinctNamesNoRepeats(gs);
    forall i, j | 0 <= i < j < |b|
      ensures b[i].name != b[j].name
    {
      assert b[i] in multiset(b) && b[j] in multiset(b);
      assert b[i] in gs && b[j] in gs;
      if b[i] == b[j] {
        RepeatCounts(b, i, j);
        NoRepeatsCount(gs, b[i]);
      }
    }
  }

  lemma RepeatCounts(b: seq<Group>, i: nat, j: nat)
    requires i < j < |b| && b[i] == b[j]
    ensures multiset(b)[b[i]] >= 2
  {
    assert b == b[..j] + [b[j]] + b[j + 1..];
    assert b[i] in b[..j];
  }

  lemma SublistCount(s: seq<Group>, t: seq<Group>)
    requires NoRepeats(s) && NoRepeats(t) && forall m :: m in s ==> m in t
    ensures multiset(s) <= multiset(t)
  {
    forall m ensures multiset(s)[m] <= multiset(t)[m] {
      NoRepeatsCount(s, m);
      NoRepeatsCount(t, m);
    }
  }

  /** There are never more groups among removed names than there are groups. */
  lemma GroupsOfFit(gs: seq<Group>, ns: seq<string>)
    requires DistinctNames(gs) && Distinct(ns)
    ensures |GroupsOf(gs, ns)| <= |gs|
  {
    var done := GroupsOf(gs, ns);
    GroupsOfNames(gs, ns);
    SublistCount(done, gs);
    assert |multiset(gs)| == |multiset(done)| + |multiset(gs) - multiset(done)|;
  }

  lemma GroupsOfAll(gs: seq<Group>, ns: seq<string>)
    requires DistinctNames(gs) && Distinct(ns) && Names(gs) <= Elements(ns)
    ensures multiset(GroupsOf(gs, ns)) == multiset(gs)
  {
    GroupsOfNames(gs, ns);
    forall m | m in gs ensures m in GroupsOf(gs, ns) {
      assert m.name in Names(gs);
    }
    SublistCount(GroupsOf(gs, ns), gs);
    SublistCount(gs, GroupsOf(gs, ns));
  }
}
