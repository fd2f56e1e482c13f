/** The dependency sort of proxy groups, in place. */
module GroupSort {
  import opened Options
  import opened Graphs
  import opened GroupGraph

  datatype SortResult = Sorted | Refused(error: BuildError) | Loop(names: seq<string>)

  // ----- step 1.1: build the graph -----

  /** The graph after the first `i` groups, with references counted with repetitions. */
  ghost predicate BuiltTo(gs: seq<Group>, i: nat, graph: map<string, Node>)
    requires i <= |gs|
  {
    && graph.Keys == Nodes(gs[..i])
    && forall n :: n in graph ==> graph[n] == Node(InCount(gs[..i], Nodes(gs), n), Find(gs[..i], n), 0, [])
  }

  /** `graph` is `graph0` with one more reference for every entry of `ps`. */
  ghost predicate Added(graph0: map<string, Node>, ps: seq<string>, graph: map<string, Node>) {
    && graph.Keys == graph0.Keys + Elements(ps)
    && forall n :: n in graph ==> graph[n] == AddedNode(graph0, multiset(ps)[n], n)
  }

  function AddedNode(graph0: map<string, Node>, count: nat, n: string): Node {
    if n in graph0 then graph0[n].(indegree := graph0[n].indegree + count) else Node(count, None, 0, [])
  }

  lemma AddedOneMore(graph0: map<string, Node>, ps: seq<string>, p: string, graph: map<string, Node>)
    requires Added(graph0, ps, graph)
    ensures Added(graph0, ps + [p], if p in graph then graph[p := graph[p].(indegree := graph[p].indegree + 1)]
                                    else graph[p := Node(1, None, 0, [])])
  {
    assert multiset(ps + [p]) == multiset(ps) + multiset{p};
    assert Elements(ps + [p]) == Elements(ps) + {p};
    if p !in graph {
      assert p !in multiset(ps);
    }
  }

  method AddReferences(graph0: map<string, Node>, proxies: seq<string>) returns (graph: map<string, Node>)
    ensures Added(graph0, proxies, graph)
  {
    graph := graph0;
    for k := 0 to |proxies|
      invariant Added(graph0, proxies[..k], graph)
    {
      hide Added;
      AddedOneMore(graph0, proxies[..k], proxies[k], graph);
      assert proxies[..k + 1] == proxies[..k] + [proxies[k]];
      if proxies[k] in graph {
        graph := graph[proxies[k] := graph[proxies[k]].(indegree := graph[proxies[k]].indegree + 1)];
      } else {
        graph := graph[proxies[k] := Node(1, None, 0, [])];
      }
    }
    assert proxies[..|proxies|] == proxies;
  }

  function WithData(graph: map<string, Node>, g: Group): map<string, Node> {
    graph[g.name := if g.name in graph then graph[g.name].(data := Some(g)) else Node(0, Some(g), 0, [])]
  }

  lemma CountsGrow(init: seq<Group>, g: Group, all: set<string>, n: string)
    requires DistinctNames(init) && g.name in all
    ensures InCount(init + [g], all, n) == InCount(init, all, n) + multiset(g.proxies)[n]
    ensures Find(init + [g], n) == if n == g.name then Some(g) else Find(init, n)
    ensures n !in Nodes(init) ==> InCount(init, all, n) == 0 && Find(init, n).None?
  {
    assert (init + [g])[..|init|] == init;
    if n !in Nodes(init) {
      InCountZero(init, all, n);
      FindFinds(init, n);
      NotReferenced(init, n);
    }
  }

  lemma BuildNode(init: seq<Group>, g: Group, all: set<string>, graph: map<string, Node>, n: string)
    requires DistinctNames(init) && g.name in all
    requires graph.Keys == Nodes(init)
    requires n in graph ==> graph[n] == Node(InCount(init, all, n), Find(init, n), 0, [])
    ensures AddedNode(WithData(graph, g), multiset(g.proxies)[n], n)
         == Node(InCount(init + [g], all, n), Find(init + [g], n), 0, [])
  {
    CountsGrow(init, g, all, n);
  }

  lemma BuildStep(gs: seq<Group>, i: nat, graph: map<string, Node>, graph': map<string, Node>)
    requires i < |gs| && DistinctNames(gs[..i + 1]) && BuiltTo(gs, i, graph)
    requires Added(WithData(graph, gs[i]), gs[i].proxies, graph')
    ensures BuiltTo(gs, i + 1, graph')
  {
    hide Nodes; hide InCount; hide Find; hide AddedNode; hide Elements;
    var g, init := gs[i], gs[..i];
    assert gs[..i + 1] == init + [g];
    NodesGrow(init, g);
    NameIsNode(gs, i);
    forall n | n in graph'
      ensures graph'[n] == Node(InCount(gs[..i + 1], Nodes(gs), n), Find(gs[..i + 1], n), 0, [])
    {
      BuildNode(init, g, Nodes(gs), graph, n);
    }
  }

  lemma NameIsNode(gs: seq<Group>, i: nat)
    requires i < |gs|
    ensures gs[i].name in Nodes(gs)
  {
    assert gs[i].name in Names(gs);
  }

  lemma NodesGrow(init: seq<Group>, g: Group)
    ensures Nodes(init + [g]) == Nodes(init) + {g.name} + Elements(g.proxies)
  {
    var gs := init + [g];
    forall n | n in Nodes(init) ensures n in Nodes(gs) {
      if n in Names(init) {
        var i :| 0 <= i < |init| && init[i].name == n;
        assert gs[i].name == n;
      } else {
        var i :| 0 <= i < |init| && n in init[i].proxies;
        assert n in gs[i].proxies;
      }
    }
    assert gs[|init|] == g;
  }

  lemma NotReferenced(gs: seq<Group>, n: string)
    requires DistinctNames(gs) && n !in Nodes(gs)
    ensures forall x :: n !in ProxiesOf(gs, x)
  {
    forall x ensures n !in ProxiesOf(gs, x) {
      FindFinds(gs, x);
    }
  }

  /** The duplicate check of the source looks at the node, which holds data exactly if the name was seen before. */
  lemma SeenBefore(gs: seq<Group>, i: nat, graph: map<string, Node>)
    requires i < |gs| && FirstError(gs[..i]).None? && BuiltTo(gs, i, graph)
    ensures (gs[i].name in graph && graph[gs[i].name].data.Some?) <==> gs[i].name in Names(gs[..i])
    ensures FirstError(gs[..i + 1]) == if !gs[i].valid then Some(BadGroup(gs[i].name))
                                       else if gs[i].name in Names(gs[..i]) then Some(Duplicate(gs[i].name))
                                       else None
  {
    assert gs[..i + 1][..i] == gs[..i];
    NoErrorMeansDistinct(gs[..i]);
    FindFinds(gs[..i], gs[i].name);
  }

  method BuildGraph(a: array<Group>) returns (graph: map<string, Node>, err: Option<BuildError>)
    ensures err == FirstError(a[..])
    ensures err.None? ==> DistinctNames(a[..]) && BuiltTo(a[..], a.Length, graph)
  {
    ghost var gs := a[..];
    graph := map[];
    for i := 0 to a.Length
      invariant FirstError(gs[..i]).None? && BuiltTo(gs, i, graph)
    {
      var g := a[i];
      SeenBefore(gs, i, graph);
      if !g.valid {
        ErrorStays(gs, i + 1);
        return graph, Some(BadGroup(g.name));
      }
      if g.name in graph && graph[g.name].data.Some? {
        ErrorStays(gs, i + 1);
        return graph, Some(Duplicate(g.name));
      }
      ghost var before := graph;
      if g.name in graph {
        graph := graph[g.name := graph[g.name].(data := Some(g))];
      } else {
        graph := graph[g.name := Node(0, Some(g), 0, [])];
      }
      graph := AddReferences(graph, g.proxies);
      NoErrorMeansDistinct(gs[..i + 1]);
      BuildStep(gs, i, before, graph);
    }
    assert gs[..a.Length] == gs;
    NoErrorMeansDistinct(gs);
    err := None;
  }

  lemma {:induction false} ErrorStays(gs: seq<Group>, i: nat)
    requires i <= |gs| && FirstError(gs[..i]).Some?
    ensures FirstError(gs) == FirstError(gs[..i])
    decreases |gs|
  {
    if i < |gs| {
      var init := gs[..|gs| - 1];
      assert init[..i] == gs[..i];
      ErrorStays(init, i);
    } else {
      assert gs[..i] == gs;
    }
  }

  // ----- step 1.2: remove what nobody refers to any more -----

  /** Every remaining node counts the references that remaining groups hold to it. */
  ghost predicate Counted(gs: seq<Group>, alive: set<string>, graph: map<string, Node>) {
    forall n :: n in graph ==> graph[n] == Node(InCount(gs, alive, n), Find(gs, n), 0, [])
  }

  /** A name is removed only after everybody who refers to it. */
  ghost predicate InOrder(gs: seq<Group>, removed: seq<string>) {
    forall i, x :: 0 <= i < |removed| && removed[i] in ProxiesOf(gs, x) ==> x in removed[..i]
  }

  ghost predicate Trimmed(gs: seq<Group>, graph: map<string, Node>, removed: seq<string>) {
    && Distinct(removed)
    && Elements(removed) !! graph.Keys
    && Elements(removed) + graph.Keys == Nodes(gs)
    && Counted(gs, graph.Keys, graph)
    && InOrder(gs, removed)
  }

  /** The queue holds exactly the nodes that nobody refers to, each once. */
  ghost predicate QueueOk(queue: seq<string>, graph: map<string, Node>) {
    Distinct(queue) && forall n :: n in queue <==> n in graph && graph[n].indegree == 0
  }

  /** The tail of the list holds the removed groups, last removed first; the rest is as it was. */
  ghost predicate Filled(gs: seq<Group>, b: seq<Group>, done: seq<Group>) {
    && |b| == |gs| && |done| <= |gs|
    && (forall k :: 0 <= k < |done| ==> b[|gs| - 1 - k] == done[k])
    && (forall k :: 0 <= k < |gs| - |done| ==> b[k] == gs[k])
  }

  /** The first queue, in whatever order the map is traversed. */
  method FirstQueue(graph: map<string, Node>) returns (queue: seq<string>)
    ensures QueueOk(queue, graph)
  {
    queue := [];
    var todo := graph.Keys;
    while todo != {}
      invariant todo <= graph.Keys
      invariant Distinct(queue)
      invariant forall n :: n in queue <==> n in graph && n !in todo && graph[n].indegree == 0
    {
      var name :| name in todo;
      todo := todo - {name};
      if graph[name].indegree == 0 {
        queue := queue + [name];
      }
    }
  }

  /** A node that still has a remaining referrer has not been deleted. */
  lemma NotDeleted(gs: seq<Group>, graph: map<string, Node>, removed: seq<string>, name: string, p: string)
    requires DistinctNames(gs) && Trimmed(gs, graph, removed) && name in graph && p in ProxiesOf(gs, name)
    ensures p in graph
  {
    FindFinds(gs, name);
    assert p in Referenced(gs);
  }

  /** Counts as they are while references of a removed name are being taken back; `rest` are still to come. */
  ghost predicate Owing(gs: seq<Group>, alive: set<string>, rest: seq<string>, graph: map<string, Node>) {
    forall n :: n in graph ==> graph[n] == Node(InCount(gs, alive, n) + multiset(rest)[n], Find(gs, n), 0, [])
  }

  function DropOne(graph: map<string, Node>, p: string): map<string, Node>
    requires p in graph
  {
    graph[p := graph[p].(indegree := graph[p].indegree - 1)]
  }

  lemma OwingOneLess(gs: seq<Group>, alive: set<string>, p: string, rest: seq<string>, graph: map<string, Node>)
    requires p in graph && Owing(gs, alive, [p] + rest, graph)
    ensures Owing(gs, alive, rest, DropOne(graph, p)) && graph[p].indegree > 0
  {
    hide InCount; hide Find;
    assert multiset([p] + rest) == multiset{p} + multiset(rest);
  }

  lemma QueueOneMore(queue: seq<string>, graph: map<string, Node>, p: string)
    requires p in graph && graph[p].indegree > 0 && QueueOk(queue, graph)
    ensures QueueOk(if graph[p].indegree == 1 then queue + [p] else queue, DropOne(graph, p))
  {
    assert p !in queue;
  }

  lemma OwingAll(gs: seq<Group>, graph: map<string, Node>, name: string)
    requires DistinctNames(gs) && name in graph && Counted(gs, graph.Keys, graph)
    ensures Owing(gs, graph.Keys - {name}, ProxiesOf(gs, name), graph)
  {
    forall n | n in graph
      ensures graph[n] == Node(InCount(gs, graph.Keys - {name}, n) + multiset(ProxiesOf(gs, name))[n],
                               Find(gs, n), 0, [])
    {
      InCountRemove(gs, graph.Keys, name, n);
    }
  }

  /** Takes back the references of `name`; nodes that lose their last one join the queue. */
  method DropReferences(ghost gs: seq<Group>, graph0: map<string, Node>, queue0: seq<string>, name: string,
                        proxies: seq<string>)
    returns (graph: map<string, Node>, queue: seq<string>)
    requires DistinctNames(gs) && name in graph0 && Counted(gs, graph0.Keys, graph0)
    requires proxies == ProxiesOf(gs, name) && forall p :: p in proxies ==> p in graph0
    requires QueueOk(queue0, graph0) && queue0 != [] && queue0[0] == name
    ensures graph.Keys == graph0.Keys && Counted(gs, graph0.Keys - {name}, graph)
    ensures QueueOk(queue, graph) && queue != [] && queue[0] == name
  {
    hide Owing; hide QueueOk; hide Counted; hide ProxiesOf;
    graph, queue := graph0, queue0;
    OwingAll(gs, graph0, name);
    assert proxies[0..] == proxies;
    for k := 0 to |proxies|
      invariant graph.Keys == graph0.Keys
      invariant Owing(gs, graph0.Keys - {name}, proxies[k..], graph)
      invariant QueueOk(queue, graph) && queue != [] && queue[0] == name
    {
      var proxy := proxies[k];
      assert proxies[k..] == [proxy] + proxies[k + 1..];
      OwingOneLess(gs, graph0.Keys - {name}, proxy, proxies[k + 1..], graph);
      QueueOneMore(queue, graph, proxy);
      graph := graph[proxy := graph[proxy].(indegree := graph[proxy].indegree - 1)];
      if graph[proxy].indegree == 0 {
        queue := queue + [proxy];
      }
    }
    OwingNothing(gs, graph0.Keys - {name}, graph);
  }

  lemma OwingNothing(gs: seq<Group>, alive: set<string>, graph: map<string, Node>)
    requires Owing(gs, alive, [], graph)
    ensures Counted(gs, alive, graph)
  {
  }

  lemma RemoveNext(gs: seq<Group>, graph: map<string, Node>, removed: seq<string>, name: string,
                   graph': map<string, Node>)
    requires DistinctNames(gs) && Trimmed(gs, graph, removed) && name in graph && graph[name].indegree == 0
    requires graph'.Keys == graph.Keys - {name} && Counted(gs, graph'.Keys, graph')
    ensures Trimmed(gs, graph', removed + [name])
  {
    var removed' := removed + [name];
    InCountZero(gs, graph.Keys, name);
    forall i, x | 0 <= i < |removed'| && removed'[i] in ProxiesOf(gs, x) ensures x in removed'[..i] {
      if i < |removed| {
        assert removed'[..i] == removed[..i];
      } else {
        assert removed'[..i] == removed;
        FindFinds(gs, x);
        assert x in Names(gs);
        assert x in Elements(removed);
      }
    }
    assert Elements(removed') == Elements(removed) + {name};
  }

  lemma CountsAfterPlain(gs: seq<Group>, graph: map<string, Node>, name: string)
    requires DistinctNames(gs) && name in graph && Counted(gs, graph.Keys, graph) && graph[name].data.None?
    ensures Counted(gs, graph.Keys - {name}, graph)
  {
    forall n | n in graph ensures InCount(gs, graph.Keys, n) == InCount(gs, graph.Keys - {name}, n) {
      InCountRemove(gs, graph.Keys, name, n);
    }
  }

  lemma HeadIsReady(gs: seq<Group>, graph: map<string, Node>, removed: seq<string>, queue: seq<string>)
    requires Trimmed(gs, graph, removed) && QueueOk(queue, graph) && queue != []
    ensures var name := queue[0];
            && name in graph
            && graph[name].indegree == 0
            && graph[name].data == Find(gs, name)
            && Distinct(removed + [name])
  {
    assert queue[0] in queue;
    assert queue[0] !in Elements(removed);
  }

  lemma QueueTail(queue: seq<string>, graph: map<string, Node>)
    requires QueueOk(queue, graph) && queue != []
    ensures QueueOk(queue[1..], graph - {queue[0]})
  {
  }

  lemma FilledOneMore(gs: seq<Group>, b: seq<Group>, done: seq<Group>, g: Group)
    requires Filled(gs, b, done) && |done| < |gs|
    ensures Filled(gs, b[|gs| - 1 - |done| := g], done + [g])
  {
  }

  lemma GroupsOneMore(gs: seq<Group>, removed: seq<string>, name: string)
    requires DistinctNames(gs) && Distinct(removed + [name])
    ensures GroupsOf(gs, removed + [name]) ==
            GroupsOf(gs, removed) + if Find(gs, name).Some? then [Find(gs, name).value] else []
    ensures |GroupsOf(gs, removed + [name])| <= |gs|
  {
    assert (removed + [name])[..|removed|] == removed;
    GroupsOfFit(gs, removed + [name]);
  }

  lemma StartsTrimmed(gs: seq<Group>, graph: map<string, Node>)
    requires BuiltTo(gs, |gs|, graph)
    ensures Trimmed(gs, graph, []) && Filled(gs, gs, GroupsOf(gs, []))
  {
    assert gs[..|gs|] == gs;
  }

  lemma EndsTrimmed(gs: seq<Group>, graph: map<string, Node>)
    requires QueueOk([], graph)
    ensures forall n :: n in graph ==> graph[n].indegree != 0
  {
    forall n | n in graph ensures graph[n].indegree != 0 {
      assert n !in [];
    }
  }

  lemma TrimmedIsCounted(gs: seq<Group>, graph: map<string, Node>, removed: seq<string>)
    requires Trimmed(gs, graph, removed)
    ensures Counted(gs, graph.Keys, graph)
  {
  }

  lemma CountedSmaller(gs: seq<Group>, alive: set<string>, graph: map<string, Node>, name: string)
    requires Counted(gs, alive, graph)
    ensures Counted(gs, alive, graph - {name})
  {
  }

  lemma NothingDeleted(gs: seq<Group>, graph: map<string, Node>, removed: seq<string>, name: string)
    requires DistinctNames(gs) && Trimmed(gs, graph, removed) && name in graph
    ensures forall p :: p in ProxiesOf(gs, name) ==> p in graph
  {
    forall p | p in ProxiesOf(gs, name) ensures p in graph {
      NotDeleted(gs, graph, removed, name, p);
    }
  }

  method TopologicalSort(a: array<Group>, graph0: map<string, Node>)
    returns (graph: map<string, Node>, ghost removed: seq<string>)
    requires DistinctNames(a[..]) && BuiltTo(a[..], a.Length, graph0)
    modifies a
    ensures Trimmed(old(a[..]), graph, removed)
    ensures forall n :: n in graph ==> graph[n].indegree != 0
    ensures Filled(old(a[..]), a[..], GroupsOf(old(a[..]), removed))
  {
    hide BuiltTo, Trimmed, QueueOk, Filled, Counted, GroupsOf, Find, DistinctNames, Distinct;
    ghost var gs := a[..];
    graph, removed := graph0, [];
    StartsTrimmed(gs, graph);
    assert |GroupsOf(gs, [])| == 0 by { GroupsOfNone(gs); }
    var index := 0;
    var queue := FirstQueue(graph);
    while queue != []
      invariant Trimmed(gs, graph, removed) && QueueOk(queue, graph)
      invariant index == |GroupsOf(gs, removed)| && Filled(gs, a[..], GroupsOf(gs, removed))
      decreases graph.Keys
    {
      HeadIsReady(gs, graph, removed, queue);
      var name := queue[0];
      var node := graph[name];
      ghost var before := graph;
      GroupsOneMore(gs, removed, name);
      TrimmedIsCounted(gs, graph, removed);
      if node.data.Some? {
        ghost var b := a[..];
        FilledOneMore(gs, b, GroupsOf(gs, removed), node.data.value);
        index := index + 1;
        a[a.Length - index] := node.data.value;
        assert a[..] == b[a.Length - index := node.data.value];
        NothingDeleted(gs, graph, removed, name);
        graph, queue := DropReferences(gs, graph, queue, name, node.data.value.proxies);
      } else {
        assert GroupsOf(gs, removed + [name]) == GroupsOf(gs, removed);
        CountsAfterPlain(gs, graph, name);
      }
      CountedSmaller(gs, before.Keys - {name}, graph, name);
      QueueTail(queue, graph);
      graph := graph - {name};
      queue := queue[1..];
      RemoveNext(gs, before, removed, name, graph);
      removed := removed + [name];
    }
    EndsTrimmed(gs, graph);
  }

  lemma GroupsOfNone(gs: seq<Group>)
    ensures GroupsOf(gs, []) == []
  {
  }
}
