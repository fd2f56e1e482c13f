/** `proxyGroupsDagSort` as a whole: what it returns, what it leaves in the list, and what it reports. */
module ProxyGroups {
  import opened Options
  import opened Graphs
  import opened GroupGraph
  import opened GroupSort
  import opened GroupLoops

  /** Every group comes after all groups that it refers to. */
  predicate DependencyOrder(b: seq<Group>) {
    forall i, j :: 0 <= i < |b| && 0 <= j < |b| && b[j].name in b[i].proxies ==> j < i
  }

  /** What a loop report names: the largest set whose members all have a predecessor and a successor in it. */
  ghost predicate IsLoopReport(gs: seq<Group>, names: seq<string>) {
    && Distinct(names)
    && names != []
    && Core(GraphOf(gs), Elements(names))
    && forall t :: Core(GraphOf(gs), t) ==> t <= Elements(names)
  }

  // ----- a complete removal order is a sort -----

  lemma {:induction false} ReversedCount(s: seq<Group>, t: seq<Group>)
    requires |s| == |t| && forall k :: 0 <= k < |s| ==> t[|s| - 1 - k] == s[k]
    ensures multiset(s) == multiset(t)
  {
    if s != [] {
      var n := |s| - 1;
      forall k | 0 <= k < n ensures t[1..][n - 1 - k] == s[..n][k] {
        assert t[1..][n - 1 - k] == t[n - k];
      }
      ReversedCount(s[..n], t[1..]);
      assert s == s[..n] + [s[n]];
      assert t == [t[0]] + t[1..];
      assert t[0] == s[n];
    }
  }

  lemma {:induction false} GroupsOfPrefix(gs: seq<Group>, ns: seq<string>, i: nat)
    requires i <= |ns|
    ensures GroupsOf(gs, ns[..i]) <= GroupsOf(gs, ns)
  {
    if i < |ns| {
      var init := ns[..|ns| - 1];
      GroupsOfPrefix(gs, init, i);
      assert init[..i] == ns[..i];
    } else {
      assert ns[..i] == ns;
    }
  }

  /** Among the removed groups, the one whose name was removed earlier comes earlier. */
  lemma EarlierName(gs: seq<Group>, ns: seq<string>, i: nat, k: nat, l: nat)
    requires DistinctNames(gs) && Distinct(ns) && i < |ns|
    requires k < |GroupsOf(gs, ns)| && l < |GroupsOf(gs, ns)|
    requires GroupsOf(gs, ns)[k].name in ns[..i] && GroupsOf(gs, ns)[l].name == ns[i]
    ensures k < l
  {
    var done, early := GroupsOf(gs, ns), GroupsOf(gs, ns[..i]);
    GroupsOfNames(gs, ns);
    assert Distinct(ns[..i]);
    GroupsOfNames(gs, ns[..i]);
    GroupsOfPrefix(gs, ns, i);
    assert done[k] in done;
    assert done[k] in early;
    var k' :| 0 <= k' < |early| && early[k'] == done[k];
    assert done[k'] == done[k];
    assert k' == k;
    assert l < |early| ==> done[l] in early;
  }

  lemma RemovalOrderIsSort(gs: seq<Group>, b: seq<Group>, removed: seq<string>)
    requires DistinctNames(gs) && Distinct(removed) && Elements(removed) == Nodes(gs) && InOrder(gs, removed)
    requires Filled(gs, b, GroupsOf(gs, removed))
    ensures multiset(b) == multiset(gs) && DependencyOrder(b)
  {
    var done := GroupsOf(gs, removed);
    hide GroupsOf; hide InOrder; hide DistinctNames; hide Distinct;
    GroupsOfAll(gs, removed);
    assert |multiset(done)| == |multiset(gs)|;
    ReversedCount(done, b);
    forall i, j | 0 <= i < |b| && 0 <= j < |b| && b[j].name in b[i].proxies ensures j < i {
      assert b[i] == done[|gs| - 1 - i] && b[j] == done[|gs| - 1 - j];
      ReferrerFirst(gs, removed, |gs| - 1 - i, |gs| - 1 - j);
    }
  }

  lemma ReferrerFirst(gs: seq<Group>, removed: seq<string>, k: nat, l: nat)
    requires DistinctNames(gs) && Distinct(removed) && InOrder(gs, removed)
    requires k < |GroupsOf(gs, removed)| && l < |GroupsOf(gs, removed)|
    requires GroupsOf(gs, removed)[l].name in GroupsOf(gs, removed)[k].proxies
    ensures k < l
  {
    hide ProxiesOf; hide GroupsOf;
    var x, y := GroupsOf(gs, removed)[k], GroupsOf(gs, removed)[l];
    GroupsOfNames(gs, removed);
    assert x in GroupsOf(gs, removed) && y in GroupsOf(gs, removed);
    var n :| 0 <= n < |removed| && removed[n] == y.name;
    ProxiesOfGroup(gs, x);
    assert x.name in removed[..n];
    EarlierName(gs, removed, n, k, l);
  }

  lemma ProxiesOfGroup(gs: seq<Group>, g: Group)
    requires DistinctNames(gs) && g in gs
    ensures ProxiesOf(gs, g.name) == g.proxies
  {
    FindFinds(gs, g.name);
    var m :| 0 <= m < |gs| && gs[m] == g;
  }

  // ----- a complete removal order shows that there is no cycle -----

  function Position(p: seq<string>, x: string): (i: nat)
    requires x in p
    ensures i < |p| && p[i] == x
  {
    if p[0] == x then 0 else 1 + Position(p[1..], x)
  }

  lemma RemovalOrderIsAcyclic(gs: seq<Group>, removed: seq<string>)
    requires DistinctNames(gs) && Distinct(removed) && Elements(removed) == Nodes(gs) && InOrder(gs, removed)
    ensures Acyclic(GraphOf(gs))
  {
    var rank: map<string, int> := map x | x in Elements(removed) :: Position(removed, x);
    forall x, y | Edge(GraphOf(gs), x, y) ensures x in rank && y in rank && rank[x] < rank[y] {
      EdgeMeansProxy(gs, x, y);
      EdgeEndsAreNodes(gs, x, y);
      var i := Position(removed, y);
      assert x in removed[..i];
    }
    RankedIsAcyclic(GraphOf(gs), rank);
  }

  lemma EdgeEndsAreNodes(gs: seq<Group>, x: string, y: string)
    requires Edge(GraphOf(gs), x, y)
    ensures x in Nodes(gs) && y in Nodes(gs)
  {
    var i :| 0 <= i < |gs| && gs[i].name == x && y in gs[i].proxies;
    assert x in Names(gs) && y in Referenced(gs);
  }

  // ----- what is left holds a cycle, and the report is exact -----

  lemma RestHasPredecessors(gs: seq<Group>, graph: map<string, Node>)
    requires DistinctNames(gs) && Counted(gs, graph.Keys, graph) && forall n :: n in graph ==> graph[n].indegree != 0
    ensures forall n :: n in graph ==> HasPredecessor(GraphOf(gs), graph.Keys, n)
  {
    forall n | n in graph ensures HasPredecessor(GraphOf(gs), graph.Keys, n) {
      InCountZero(gs, graph.Keys, n);
      var x :| x in graph.Keys && n in ProxiesOf(gs, x);
      EdgeMeansProxy(gs, x, n);
    }
  }

  /** A set in which everybody has a predecessor loses nobody to a removal in reference order. */
  lemma {:induction false} KeptByOrder(gs: seq<Group>, removed: seq<string>, t: set<string>, i: nat)
    requires DistinctNames(gs) && InOrder(gs, removed) && i < |removed|
    requires forall x :: x in t ==> HasPredecessor(GraphOf(gs), t, x)
    ensures removed[i] !in t
    decreases i
  {
    hide GraphOf; hide Edge; hide ProxiesOf;
    if removed[i] in t {
      var y :| y in t && Edge(GraphOf(gs), y, removed[i]);
      EdgeMeansProxy(gs, y, removed[i]);
      var j :| 0 <= j < i && removed[j] == y;
      KeptByOrder(gs, removed, t, j);
    }
  }

  lemma {:induction false} KeptByOutOrder(gs: seq<Group>, removed: seq<string>, t: set<string>, i: nat)
    requires DistinctNames(gs) && OutOrder(gs, removed) && i < |removed|
    requires forall x :: x in t ==> HasSuccessor(GraphOf(gs), t, x)
    ensures removed[i] !in t
    decreases i
  {
    hide GraphOf; hide Edge; hide ProxiesOf;
    if removed[i] in t {
      var y :| y in t && Edge(GraphOf(gs), removed[i], y);
      EdgeMeansProxy(gs, removed[i], y);
      var j :| 0 <= j < i && removed[j] == y;
      KeptByOutOrder(gs, removed, t, j);
    }
  }

  lemma CoreAvoids(gs: seq<Group>, removed: seq<string>, removed2: seq<string>, t: set<string>, x: string)
    requires DistinctNames(gs) && InOrder(gs, removed) && OutOrder(gs, removed2)
    requires Core(GraphOf(gs), t) && x in t
    ensures x !in removed && x !in removed2
  {
    hide InOrder; hide OutOrder; hide GraphOf; hide HasPredecessor; hide HasSuccessor;
    if x in removed {
      var i :| 0 <= i < |removed| && removed[i] == x;
      KeptByOrder(gs, removed, t, i);
    }
    if x in removed2 {
      var i :| 0 <= i < |removed2| && removed2[i] == x;
      KeptByOutOrder(gs, removed2, t, i);
    }
  }

  lemma ReferrerIsNode(gs: seq<Group>, t: set<string>, x: string)
    requires HasSuccessor(GraphOf(gs), t, x)
    ensures x in Nodes(gs)
  {
    hide GraphOf; hide Edge;
    var y :| y in t && Edge(GraphOf(gs), x, y);
    EdgeEndsAreNodes(gs, x, y);
  }

  lemma CoreIsKept(gs: seq<Group>, removed: seq<string>, removed2: seq<string>, left: set<string>, t: set<string>)
    requires DistinctNames(gs) && InOrder(gs, removed) && OutOrder(gs, removed2)
    requires Elements(removed) + Elements(removed2) + left == Nodes(gs)
    requires Core(GraphOf(gs), t)
    ensures t <= left
  {
    hide InOrder; hide OutOrder; hide Nodes; hide HasPredecessor; hide HasSuccessor; hide GraphOf;
    forall x | x in t ensures x in left {
      CoreAvoids(gs, removed, removed2, t, x);
      ReferrerIsNode(gs, t, x);
    }
  }

  lemma SuccessorLeft(gs: seq<Group>, all: set<string>, graph: map<string, Node>, removed2: seq<string>, n: string)
    requires DistinctNames(gs) && OutTrimmed(gs, all, graph, removed2) && OutQueueOk([], graph) && n in graph
    ensures HasSuccessor(GraphOf(gs), graph.Keys, n)
  {
    hide GraphOf; hide Edge; hide ProxiesOf; hide OutOrder; hide FromOk;
    assert n !in [];
    OutCountZero(ProxiesOf(gs, n), graph.Keys);
    var y :| y in ProxiesOf(gs, n) && y in graph.Keys;
    EdgeMeansProxy(gs, n, y);
  }

  lemma PredecessorLeft(gs: seq<Group>, all: set<string>, graph: map<string, Node>, removed2: seq<string>, n: string)
    requires DistinctNames(gs) && OutTrimmed(gs, all, graph, removed2) && n in graph
    requires HasPredecessor(GraphOf(gs), all, n)
    ensures HasPredecessor(GraphOf(gs), graph.Keys, n)
  {
    hide GraphOf; hide Edge; hide ProxiesOf; hide OutCounted; hide FromOk;
    var x :| x in all && Edge(GraphOf(gs), x, n);
    EdgeMeansProxy(gs, x, n);
    assert x !in removed2;
    assert x in graph.Keys;
  }

  /** The names left after both trimmings form a core. */
  lemma LeftIsCore(gs: seq<Group>, all: set<string>, graph: map<string, Node>, removed2: seq<string>)
    requires DistinctNames(gs) && OutTrimmed(gs, all, graph, removed2) && OutQueueOk([], graph)
    requires forall n :: n in all ==> HasPredecessor(GraphOf(gs), all, n)
    ensures Core(GraphOf(gs), graph.Keys)
  {
    hide GraphOf; hide HasPredecessor; hide HasSuccessor; hide OutOrder; hide FromOk; hide OutCounted;
    forall n | n in graph
      ensures HasPredecessor(GraphOf(gs), graph.Keys, n) && HasSuccessor(GraphOf(gs), graph.Keys, n)
    {
      SuccessorLeft(gs, all, graph, removed2, n);
      PredecessorLeft(gs, all, graph, removed2, n);
    }
  }

  lemma RestIsClosed(gs: seq<Group>, graph: map<string, Node>, removed: seq<string>)
    requires DistinctNames(gs) && Trimmed(gs, graph, removed)
    ensures ClosedUnder(gs, graph.Keys) && Linked(gs, {}, graph)
  {
    forall n, p | n in graph.Keys && p in ProxiesOf(gs, n) ensures p in graph.Keys {
      NotDeleted(gs, graph, removed, n, p);
    }
  }

  /** What the sort found when something is left: there is a cycle, and the report is exact. */
  lemma ReportIsExact(gs: seq<Group>, graph1: map<string, Node>, removed: seq<string>, graph2: map<string, Node>,
                      removed2: seq<string>, names: seq<string>)
    requires DistinctNames(gs) && Trimmed(gs, graph1, removed) && graph1.Keys != {}
    requires forall n :: n in graph1 ==> graph1[n].indegree != 0
    requires OutTrimmed(gs, graph1.Keys, graph2, removed2) && OutQueueOk([], graph2)
    requires Distinct(names) && Elements(names) == graph2.Keys
    ensures !Acyclic(GraphOf(gs)) && IsLoopReport(gs, names)
  {
    hide InOrder, OutOrder, Counted, OutCounted, FromOk, GraphOf, Core, HasPredecessor, Nodes, OutQueueOk;
    var g := GraphOf(gs);
    RestHasPredecessors(gs, graph1);
    var c := PredecessorsMakeCycle(g, graph1.Keys);
    CycleIsCore(g, c);
    LeftIsCore(gs, graph1.Keys, graph2, removed2);
    forall t | Core(g, t) ensures t <= Elements(names) {
      CoreIsKept(gs, removed, removed2, graph2.Keys, t);
    }
    assert c[0] in Elements(c);
  }

  // ----- the whole function -----

  method ProxyGroupsDagSort(a: array<Group>) returns (result: SortResult)
    modifies a
    ensures result.Sorted? <==> FirstError(old(a[..])).None? && Acyclic(GraphOf(old(a[..])))
    ensures result.Sorted? ==> multiset(a[..]) == multiset(old(a[..])) && DependencyOrder(a[..])
    ensures result.Refused? <==> FirstError(old(a[..])).Some?
    ensures result.Refused? ==> FirstError(old(a[..])) == Some(result.error) && a[..] == old(a[..])
    ensures result.Loop? ==> IsLoopReport(old(a[..]), result.names)
  {
    hide FirstError, DistinctNames, BuiltTo, Trimmed, Filled, GraphOf, Acyclic, IsLoopReport;
    hide Linked, ClosedUnder, OutTrimmed, OutQueueOk, DependencyOrder, Nodes, Distinct, InOrder, Elements;
    ghost var gs := a[..];
    var graph, err := BuildGraph(a);
    if err.Some? {
      return Refused(err.value);
    }
    ghost var removed;
    graph, removed := TopologicalSort(a, graph);
    if graph == map[] {
      NothingLeft(gs, graph, removed);
      RemovalOrderIsSort(gs, a[..], removed);
      RemovalOrderIsAcyclic(gs, removed);
      return Sorted;
    }
    ghost var graph1 := graph;
    SomethingLeft(graph1);
    RestIsClosed(gs, graph, removed);
    graph := RebuildGraph(gs, graph);
    ghost var removed2;
    graph, removed2 := TrimOutgoing(gs, graph);
    var names := NamesOf(graph);
    ReportIsExact(gs, graph1, removed, graph, removed2, names);
    return Loop(names);
  }

  lemma NothingLeft(gs: seq<Group>, graph: map<string, Node>, removed: seq<string>)
    requires Trimmed(gs, graph, removed) && graph == map[]
    ensures Distinct(removed) && Elements(removed) == Nodes(gs) && InOrder(gs, removed)
  {
    assert graph.Keys == {};
  }

  lemma SomethingLeft(graph: map<string, Node>)
    requires graph != map[]
    ensures graph.Keys != {}
  {
    assert graph.Keys == {} ==> graph == map[];
  }

  /** Every name on a cycle is reported, and every reported name lies on a walk from a cycle to a cycle. */
  lemma ReportSurroundsCycles(gs: seq<Group>, names: seq<string>)
    requires IsLoopReport(gs, names)
    ensures forall p :: Cycle(GraphOf(gs), p) ==> Elements(p) <= Elements(names)
    ensures forall x :: x in names ==> BetweenCycles(GraphOf(gs), x)
  {
    hide Core; hide Cycle; hide GraphOf;
    forall p | Cycle(GraphOf(gs), p) ensures Elements(p) <= Elements(names) {
      CycleIsCore(GraphOf(gs), p);
    }
    forall x | x in names ensures BetweenCycles(GraphOf(gs), x) {
      var c, p, q, d := CoreLiesBetweenCycles(GraphOf(gs), Elements(names), x);
    }
  }

  ghost predicate BetweenCycles(g: Graph, x: string) {
    && (exists c, p :: Cycle(g, c) && Walk(g, p) && p[0] == c[0] && p[|p| - 1] == x)
    && (exists d, q :: Cycle(g, d) && Walk(g, q) && q[0] == x && q[|q| - 1] == d[0])
  }
}
