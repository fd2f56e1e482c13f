/** The second half of the group sort: trimming what only leads away from loops. */
module GroupLoops {
  import opened Options
  import opened Graphs
  import opened GroupGraph

  // ----- step 2.1: count outgoing references and remember where incoming ones come from -----

  /** The references of the names in `seen` have been entered. */
  ghost predicate Linked(gs: seq<Group>, seen: set<string>, graph: map<string, Node>) {
    forall n :: n in graph ==>
      && graph[n].data == Find(gs, n)
      && graph[n].outdegree == (if n in seen then |ProxiesOf(gs, n)| else 0)
      && LinksInto(gs, seen, n, graph[n].from)
  }

  ghost predicate LinksInto(gs: seq<Group>, seen: set<string>, n: string, from: seq<string>) {
    forall m :: multiset(from)[m] == if m in seen then multiset(ProxiesOf(gs, m))[n] else 0
  }

  /** As `Linked`, with the first entries `ps` of `name` entered as well. */
  ghost predicate LinkedPart(gs: seq<Group>, seen: set<string>, name: string, ps: seq<string>,
                             graph: map<string, Node>) {
    forall n :: n in graph ==>
      && graph[n].data == Find(gs, n)
      && graph[n].outdegree == (if n in seen then |ProxiesOf(gs, n)| else if n == name then |ps| else 0)
      && LinksPart(gs, seen, name, ps, n, graph[n].from)
  }

  ghost predicate LinksPart(gs: seq<Group>, seen: set<string>, name: string, ps: seq<string>, n: string,
                            from: seq<string>) {
    forall m ::
      multiset(from)[m]
      == if m in seen then multiset(ProxiesOf(gs, m))[n] else if m == name then multiset(ps)[n] else 0
  }

  /** One entry: the outgoing count of `name` goes up and the child remembers `name`. */
  function LinkOne(graph: map<string, Node>, name: string, p: string): map<string, Node>
    requires name in graph && p in graph
  {
    var counted := graph[name := graph[name].(outdegree := graph[name].outdegree + 1)];
    counted[p := counted[p].(from := counted[p].from + [name])]
  }

  lemma LinksOneMore(gs: seq<Group>, seen: set<string>, name: string, ps: seq<string>, p: string, n: string,
                     from: seq<string>)
    requires name !in seen && LinksPart(gs, seen, name, ps, n, from)
    ensures LinksPart(gs, seen, name, ps + [p], n, if n == p then from + [name] else from)
  {
    hide ProxiesOf;
    assert multiset(ps + [p]) == multiset(ps) + multiset{p};
    assert multiset(from + [name]) == multiset(from) + multiset{name};
  }

  lemma LinkedOneMore(gs: seq<Group>, seen: set<string>, name: string, ps: seq<string>, p: string,
                      graph: map<string, Node>)
    requires name in graph && p in graph && name !in seen && LinkedPart(gs, seen, name, ps, graph)
    ensures LinkedPart(gs, seen, name, ps + [p], LinkOne(graph, name, p))
  {
    hide LinksPart; hide Find; hide ProxiesOf;
    var graph' := LinkOne(graph, name, p);
    forall n | n in graph' ensures LinksPart(gs, seen, name, ps + [p], n, graph'[n].from) {
      LinksOneMore(gs, seen, name, ps, p, n, graph[n].from);
    }
  }

  lemma LinkedNone(gs: seq<Group>, seen: set<string>, name: string, graph: map<string, Node>)
    requires name !in seen && Linked(gs, seen, graph)
    ensures LinkedPart(gs, seen, name, [], graph)
  {
    forall n | n in graph ensures LinksPart(gs, seen, name, [], n, graph[n].from) {
      assert LinksInto(gs, seen, n, graph[n].from);
    }
  }

  lemma LinkedAll(gs: seq<Group>, seen: set<string>, name: string, graph: map<string, Node>)
    requires name !in seen && LinkedPart(gs, seen, name, ProxiesOf(gs, name), graph)
    ensures Linked(gs, seen + {name}, graph)
  {
    forall n | n in graph ensures LinksInto(gs, seen + {name}, n, graph[n].from) {
      assert LinksPart(gs, seen, name, ProxiesOf(gs, name), n, graph[n].from);
    }
  }

  method AddLinks(ghost gs: seq<Group>, ghost seen: set<string>, graph0: map<string, Node>, name: string,
                  proxies: seq<string>)
    returns (graph: map<string, Node>)
    requires name in graph0 && name !in seen && Linked(gs, seen, graph0)
    requires proxies == ProxiesOf(gs, name) && forall p :: p in proxies ==> p in graph0
    ensures graph.Keys == graph0.Keys && Linked(gs, seen + {name}, graph)
  {
    hide Linked; hide LinkedPart; hide ProxiesOf;
    graph := graph0;
    LinkedNone(gs, seen, name, graph);
    for k := 0 to |proxies|
      invariant graph.Keys == graph0.Keys && LinkedPart(gs, seen, name, proxies[..k], graph)
    {
      LinkedOneMore(gs, seen, name, proxies[..k], proxies[k], graph);
      assert proxies[..k + 1] == proxies[..k] + [proxies[k]];
      graph := graph[name := graph[name].(outdegree := graph[name].outdegree + 1)];
      graph := graph[proxies[k] := graph[proxies[k]].(from := graph[proxies[k]].from + [name])];
    }
    assert proxies[..|proxies|] == proxies;
    LinkedAll(gs, seen, name, graph);
  }

  /** Every name that a remaining group refers to remains. */
  ghost predicate ClosedUnder(gs: seq<Group>, alive: set<string>) {
    forall n, p :: n in alive && p in ProxiesOf(gs, n) ==> p in alive
  }

  lemma LinkedPlain(gs: seq<Group>, seen: set<string>, name: string, graph: map<string, Node>)
    requires name in graph && name !in seen && Linked(gs, seen, graph) && ProxiesOf(gs, name) == []
    ensures Linked(gs, seen + {name}, graph)
  {
    LinkedNone(gs, seen, name, graph);
    LinkedAll(gs, seen, name, graph);
  }

  lemma LinkedData(gs: seq<Group>, seen: set<string>, graph: map<string, Node>, name: string)
    requires name in graph && Linked(gs, seen, graph)
    ensures graph[name].data == Find(gs, name)
  {
  }

  method RebuildGraph(ghost gs: seq<Group>, graph0: map<string, Node>) returns (graph: map<string, Node>)
    requires Linked(gs, {}, graph0) && ClosedUnder(gs, graph0.Keys)
    ensures graph.Keys == graph0.Keys && Linked(gs, graph0.Keys, graph)
  {
    hide Linked; hide Find;
    graph := graph0;
    var todo := graph.Keys;
    assert graph0.Keys - todo == {};
    while todo != {}
      invariant graph.Keys == graph0.Keys && todo <= graph0.Keys
      invariant Linked(gs, graph0.Keys - todo, graph)
    {
      var name :| name in todo;
      ghost var seen := graph0.Keys - todo;
      LinkedData(gs, seen, graph, name);
      if graph[name].data.Some? {
        graph := AddLinks(gs, seen, graph, name, graph[name].data.value.proxies);
      } else {
        LinkedPlain(gs, seen, name, graph);
      }
      todo := todo - {name};
      assert graph0.Keys - todo == seen + {name};
    }
    assert graph0.Keys - todo == graph0.Keys;
  }

  // ----- step 2.2: remove what refers to nothing that is left -----

  /** Every remaining node counts its references to remaining nodes. */
  ghost predicate OutCounted(gs: seq<Group>, alive: set<string>, graph: map<string, Node>) {
    forall n :: n in graph ==> graph[n].outdegree == OutCount(ProxiesOf(gs, n), alive)
  }

  /** The remembered referrers, among the nodes `all` that entered this phase. */
  ghost predicate FromOk(gs: seq<Group>, all: set<string>, graph: map<string, Node>) {
    forall n :: n in graph ==> LinksInto(gs, all, n, graph[n].from)
  }

  /** A name is removed only after everything it refers to. */
  ghost predicate OutOrder(gs: seq<Group>, removed: seq<string>) {
    forall i, y :: 0 <= i < |removed| && y in ProxiesOf(gs, removed[i]) ==> y in removed[..i]
  }

  ghost predicate OutTrimmed(gs: seq<Group>, all: set<string>, graph: map<string, Node>, removed: seq<string>) {
    && Elements(removed) !! graph.Keys
    && Elements(removed) + graph.Keys == all
    && OutCounted(gs, graph.Keys, graph)
    && FromOk(gs, all, graph)
    && OutOrder(gs, removed)
  }

  ghost predicate OutQueueOk(queue: seq<string>, graph: map<string, Node>) {
    Distinct(queue) && forall n :: n in queue <==> n in graph && graph[n].outdegree == 0
  }

  method FirstOutQueue(graph: map<string, Node>) returns (queue: seq<string>)
    ensures OutQueueOk(queue, graph)
  {
    queue := [];
    var todo := graph.Keys;
    while todo != {}
      invariant todo <= graph.Keys
      invariant Distinct(queue)
      invariant forall n :: n in queue <==> n in graph && n !in todo && graph[n].outdegree == 0
    {
      var name :| name in todo;
      todo := todo - {name};
      if graph[name].outdegree == 0 {
        queue := queue + [name];
      }
    }
  }

  ghost predicate OutOwing(gs: seq<Group>, alive: set<string>, rest: seq<string>, graph: map<string, Node>) {
    forall n :: n in graph ==> graph[n].outdegree == OutCount(ProxiesOf(gs, n), alive) + multiset(rest)[n]
  }

  function DropOut(graph: map<string, Node>, f: string): map<string, Node>
    requires f in graph
  {
    graph[f := graph[f].(outdegree := graph[f].outdegree - 1)]
  }

  lemma OutOwingOneLess(gs: seq<Group>, alive: set<string>, f: string, rest: seq<string>, graph: map<string, Node>)
    requires f in graph && OutOwing(gs, alive, [f] + rest, graph)
    ensures OutOwing(gs, alive, rest, DropOut(graph, f)) && graph[f].outdegree > 0
  {
    hide OutCount; hide ProxiesOf;
    assert multiset([f] + rest) == multiset{f} + multiset(rest);
  }

  lemma OutQueueOneMore(queue: seq<string>, graph: map<string, Node>, f: string)
    requires f in graph && graph[f].outdegree > 0 && OutQueueOk(queue, graph)
    ensures OutQueueOk(if graph[f].outdegree == 1 then queue + [f] else queue, DropOut(graph, f))
  {
    assert f !in queue;
  }

  lemma OutOwingAll(gs: seq<Group>, all: set<string>, graph: map<string, Node>, removed: seq<string>, name: string)
    requires OutTrimmed(gs, all, graph, removed) && name in graph
    ensures OutOwing(gs, graph.Keys - {name}, graph[name].from, graph)
  {
    assert LinksInto(gs, all, name, graph[name].from);
    forall n | n in graph
      ensures graph[n].outdegree == OutCount(ProxiesOf(gs, n), graph.Keys - {name}) + multiset(graph[name].from)[n]
    {
      OutCountRemove(ProxiesOf(gs, n), graph.Keys, name);
    }
  }

  /** A remembered referrer has not been deleted, because what it refers to remains. */
  lemma ReferrerNotDeleted(gs: seq<Group>, all: set<string>, graph: map<string, Node>, removed: seq<string>,
                           name: string, f: string)
    requires OutTrimmed(gs, all, graph, removed) && name in graph && f in graph[name].from
    ensures f in graph
  {
    assert LinksInto(gs, all, name, graph[name].from);
    assert multiset(graph[name].from)[f] > 0;
    assert f in all && name in ProxiesOf(gs, f);
  }

  ghost predicate SameFrom(graph: map<string, Node>, graph0: map<string, Node>) {
    graph.Keys == graph0.Keys && forall n :: n in graph ==> graph[n].from == graph0[n].from
  }

  method DropReferrers(ghost gs: seq<Group>, ghost alive: set<string>, graph0: map<string, Node>, queue0: seq<string>,
                       from: seq<string>)
    returns (graph: map<string, Node>, queue: seq<string>)
    requires OutOwing(gs, alive, from, graph0) && forall f :: f in from ==> f in graph0
    requires OutQueueOk(queue0, graph0) && queue0 != []
    ensures SameFrom(graph, graph0) && OutCounted(gs, alive, graph)
    ensures OutQueueOk(queue, graph) && queue != [] && queue[0] == queue0[0]
  {
    hide OutOwing; hide OutQueueOk; hide OutCounted;
    graph, queue := graph0, queue0;
    assert from[0..] == from;
    for k := 0 to |from|
      invariant SameFrom(graph, graph0) && OutOwing(gs, alive, from[k..], graph)
      invariant OutQueueOk(queue, graph) && queue != [] && queue[0] == queue0[0]
    {
      var f := from[k];
      assert from[k..] == [f] + from[k + 1..];
      OutOwingOneLess(gs, alive, f, from[k + 1..], graph);
      OutQueueOneMore(queue, graph, f);
      graph := graph[f := graph[f].(outdegree := graph[f].outdegree - 1)];
      if graph[f].outdegree == 0 {
        queue := queue + [f];
      }
    }
    OutOwingNothing(gs, alive, graph);
  }

  lemma OutOwingNothing(gs: seq<Group>, alive: set<string>, graph: map<string, Node>)
    requires OutOwing(gs, alive, [], graph)
    ensures OutCounted(gs, alive, graph)
  {
  }

  lemma OutOrderNext(gs: seq<Group>, removed: seq<string>, name: string)
    requires OutOrder(gs, removed) && forall y :: y in ProxiesOf(gs, name) ==> y in removed
    ensures OutOrder(gs, removed + [name])
  {
    hide ProxiesOf;
    var removed' := removed + [name];
    forall i, y | 0 <= i < |removed'| && y in ProxiesOf(gs, removed'[i]) ensures y in removed'[..i] {
      assert removed'[..i] == if i < |removed| then removed[..i] else removed;
    }
  }

  lemma OutRemoveNext(gs: seq<Group>, all: set<string>, graph: map<string, Node>, removed: seq<string>, name: string,
                      graph': map<string, Node>)
    requires OutTrimmed(gs, all, graph, removed) && ClosedUnder(gs, all)
    requires name in graph && graph[name].outdegree == 0
    requires SameFrom(graph', graph) && OutCounted(gs, graph.Keys - {name}, graph')
    ensures OutTrimmed(gs, all, graph' - {name}, removed + [name])
  {
    hide ProxiesOf; hide LinksInto; hide OutOrder;
    OutCountZero(ProxiesOf(gs, name), graph.Keys);
    forall y | y in ProxiesOf(gs, name) ensures y in removed {
      assert y in Elements(removed);
    }
    OutOrderNext(gs, removed, name);
    assert Elements(removed + [name]) == Elements(removed) + {name};
    assert (graph' - {name}).Keys == graph.Keys - {name};
  }

  lemma OutQueueTail(queue: seq<string>, graph: map<string, Node>)
    requires OutQueueOk(queue, graph) && queue != []
    ensures queue[0] in graph && graph[queue[0]].outdegree == 0
    ensures OutQueueOk(queue[1..], graph - {queue[0]})
  {
    assert queue[0] in queue;
  }

  lemma LinkedIsTrimmed(gs: seq<Group>, graph: map<string, Node>)
    requires Linked(gs, graph.Keys, graph) && ClosedUnder(gs, graph.Keys)
    ensures OutTrimmed(gs, graph.Keys, graph, [])
  {
    forall n | n in graph ensures graph[n].outdegree == OutCount(ProxiesOf(gs, n), graph.Keys) {
      OutCountAll(ProxiesOf(gs, n), graph.Keys);
    }
  }

  /** What remains after trimming, with the names removed in the order of their removal. */
  method TrimOutgoing(ghost gs: seq<Group>, graph0: map<string, Node>)
    returns (graph: map<string, Node>, ghost removed: seq<string>)
    requires Linked(gs, graph0.Keys, graph0) && ClosedUnder(gs, graph0.Keys)
    ensures OutTrimmed(gs, graph0.Keys, graph, removed)
    ensures OutQueueOk([], graph)
  {
    hide Linked; hide ClosedUnder; hide OutTrimmed; hide OutQueueOk; hide OutCounted; hide OutOwing;
    graph, removed := graph0, [];
    LinkedIsTrimmed(gs, graph);
    var queue := FirstOutQueue(graph);
    while queue != []
      invariant OutTrimmed(gs, graph0.Keys, graph, removed) && OutQueueOk(queue, graph)
      decreases graph.Keys
    {
      OutQueueTail(queue, graph);
      var name := queue[0];
      ghost var before := graph;
      OutOwingAll(gs, graph0.Keys, graph, removed, name);
      forall f | f in graph[name].from ensures f in graph {
        ReferrerNotDeleted(gs, graph0.Keys, graph, removed, name, f);
      }
      graph, queue := DropReferrers(gs, graph.Keys - {name}, graph, queue, graph[name].from);
      OutQueueTail(queue, graph);
      OutRemoveNext(gs, graph0.Keys, before, removed, name, graph);
      graph := graph - {name};
      queue := queue[1..];
      removed := removed + [name];
    }
  }

  // ----- step 2.3: report the names that are left -----

  method NamesOf(graph: map<string, Node>) returns (names: seq<string>)
    ensures Distinct(names) && Elements(names) == graph.Keys
  {
    names := [];
    var todo := graph.Keys;
    while todo != {}
      invariant todo <= graph.Keys && Distinct(names) && Elements(names) == graph.Keys - todo
    {
      var name :| name in todo;
      assert Elements(names + [name]) == Elements(names) + {name};
      names := names + [name];
      todo := todo - {name};
    }
  }
}
