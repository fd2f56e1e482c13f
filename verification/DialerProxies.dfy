/** The check of `dialer-proxy` references: one walk along each chain, with three colours. */
module DialerProxies {
  import opened Options
  import opened Graphs

  datatype DialerError = NotFound(name: string, dialer: string) | Circular(name: string)

  datatype Colour = OnPath | Finished

  /** The reference graph; an empty name means that a proxy dials directly. */
  function DialerGraph(proxies: map<string, string>): Graph {
    map x | x in proxies && proxies[x] != "" :: {proxies[x]}
  }

  predicate AllFound(proxies: map<string, string>) {
    forall x :: x in proxies && proxies[x] != "" ==> proxies[x] in proxies
  }

  /** The configured references, or the first missing one met in whatever order the map is traversed. */
  method CollectDialers(proxies: map<string, string>) returns (graph: map<string, string>, err: Option<DialerError>)
    ensures err.None? <==> AllFound(proxies)
    ensures err.None? ==> graph == map x | x in proxies && proxies[x] != "" :: proxies[x]
    ensures err.Some? ==>
      && err.value.NotFound? && err.value.name in proxies && proxies[err.value.name] == err.value.dialer
      && err.value.dialer != "" && err.value.dialer !in proxies
  {
    graph := map[];
    var todo := proxies.Keys;
    while todo != {}
      invariant todo <= proxies.Keys
      invariant forall x :: x in proxies && x !in todo && proxies[x] != "" ==> proxies[x] in proxies
      invariant graph == map x | x in proxies && x !in todo && proxies[x] != "" :: proxies[x]
    {
      var name :| name in todo;
      todo := todo - {name};
      var dialer := proxies[name];
      if dialer != "" {
        if dialer !in proxies {
          return graph, Some(NotFound(name, dialer));
        }
        graph := graph[name := dialer];
      }
    }
    err := None;
  }

  /** Finished proxies are ranked so that every reference goes up, to a finished proxy. */
  ghost predicate FinishedOk(graph: map<string, string>, state: map<string, Colour>, rank: map<string, int>, low: int) {
    && (forall x :: x in rank <==> x in state && state[x].Finished?)
    && (forall x :: x in rank ==> low <= rank[x])
    && (forall x :: x in rank && x in graph ==> graph[x] in rank && rank[x] < rank[graph[x]])
  }

  /** The proxies of the current walk, in order. */
  ghost predicate PathOk(graph: map<string, string>, state: map<string, Colour>, path: seq<string>) {
    && Distinct(path)
    && (forall x :: x in path <==> x in state && state[x].OnPath?)
    && (forall i :: 0 <= i < |path| - 1 ==> path[i] in graph && graph[path[i]] == path[i + 1])
  }

  function Finish(state: map<string, Colour>, path: seq<string>): map<string, Colour> {
    map x | x in state :: if x in path then Finished else state[x]
  }

  /** Ranks for a finished walk, all below the ranks given so far. */
  ghost function PathRank(rank: map<string, int>, low: int, path: seq<string>): map<string, int> {
    map x | x in rank.Keys + Elements(path) ::
      if x in path then low - |path| + FirstIndex(path, x) else if x in rank then rank[x] else 0
  }

  ghost function FirstIndex(path: seq<string>, x: string): (i: nat)
    requires x in path
    ensures i < |path| && path[i] == x
  {
    var i: nat :| i < |path| && path[i] == x; i
  }

  lemma WalkFinished(graph: map<string, string>, state: map<string, Colour>, rank: map<string, int>, low: int,
                     path: seq<string>)
    requires FinishedOk(graph, state, rank, low) && PathOk(graph, state, path)
    requires path != [] && path[|path| - 1] in graph ==> graph[path[|path| - 1]] in rank
    ensures FinishedOk(graph, Finish(state, path), PathRank(rank, low, path), low - |path|)
  {
    var rank' := PathRank(rank, low, path);
    forall x | x in rank' && x in graph ensures graph[x] in rank' && rank'[x] < rank'[graph[x]] {
      if x in path {
        var i := FirstIndex(path, x);
        if i < |path| - 1 {
          assert path[i + 1] in path && graph[x] == path[i + 1];
          assert FirstIndex(path, path[i + 1]) == i + 1;
        }
      }
    }
  }

  lemma RevisitIsCycle(graph: map<string, string>, proxies: map<string, string>, path: seq<string>, current: string)
    requires graph == map x | x in proxies && proxies[x] != "" :: proxies[x]
    requires path != [] && current in path && path[|path| - 1] in graph && graph[path[|path| - 1]] == current
    requires forall i :: 0 <= i < |path| - 1 ==> path[i] in graph && graph[path[i]] == path[i + 1]
    ensures Walk(DialerGraph(proxies), path + [current]) && !Distinct(path + [current])
    ensures !Acyclic(DialerGraph(proxies))
  {
    var p := path + [current];
    forall i | 0 <= i < |p| - 1 ensures Edge(DialerGraph(proxies), p[i], p[i + 1]) {
    }
    var i :| 0 <= i < |path| && path[i] == current;
    assert p[i] == p[|p| - 1];
    var c := RepeatMakesCycle(DialerGraph(proxies), p);
  }

  lemma PathGrows(graph: map<string, string>, state: map<string, Colour>, rank: map<string, int>, low: int,
                  path: seq<string>, current: string, marked: seq<string>)
    requires FinishedOk(graph, state, rank, low) && PathOk(graph, state, path) && current !in state
    requires path != [] ==> path[|path| - 1] in graph && graph[path[|path| - 1]] == current
    requires Distinct(marked) && Elements(marked) == state.Keys
    ensures FinishedOk(graph, state[current := OnPath], rank, low)
    ensures PathOk(graph, state[current := OnPath], path + [current])
    ensures Distinct(marked + [current]) && Elements(marked + [current]) == state.Keys + {current}
    ensures Elements(path + [current]) == Elements(path) + {current} && current !in Elements(path)
  {
    assert current !in Elements(marked);
  }

  /** A walk from `name` comes back to a proxy it has passed. */
  ghost predicate LeadsIntoCycle(proxies: map<string, string>, name: string) {
    exists p :: Walk(DialerGraph(proxies), p) && p[0] == name && !Distinct(p)
  }

  /**
   One walk from `name`: it ends at a proxy without a reference or at a finished one, or it meets
   itself.  `marked` lists every proxy ever put on a path.
   */
  method WalkChain(proxies: map<string, string>, graph: map<string, string>, name: string, state0: map<string, Colour>,
                   ghost rank: map<string, int>, ghost low: int, ghost marked0: seq<string>)
    returns (state: map<string, Colour>, path: seq<string>, cyclic: bool, ghost marked: seq<string>)
    requires graph == map x | x in proxies && proxies[x] != "" :: proxies[x]
    requires AllFound(proxies) && name in proxies
    requires FinishedOk(graph, state0, rank, low) && PathOk(graph, state0, [])
    requires Distinct(marked0) && Elements(marked0) == state0.Keys <= proxies.Keys
    ensures cyclic ==> LeadsIntoCycle(proxies, name) && !Acyclic(DialerGraph(proxies))
    ensures !cyclic ==> FinishedOk(graph, state, rank, low) && PathOk(graph, state, path)
    ensures !cyclic ==> (path != [] && path[|path| - 1] in graph ==> graph[path[|path| - 1]] in rank)
    ensures !cyclic ==> name in state && state0.Keys <= state.Keys
    ensures Distinct(marked) && Elements(marked) == state.Keys <= proxies.Keys
  {
    hide FinishedOk; hide PathOk; hide Distinct; hide LeadsIntoCycle; hide DialerGraph; hide Acyclic; hide Elements;
    state, path, marked := state0, [], marked0;
    var current, ok := name, true;
    while ok && !(current in state && state[current] == Finished)
      invariant FinishedOk(graph, state, rank, low) && PathOk(graph, state, path)
      invariant Distinct(marked) && Elements(marked) == state.Keys <= proxies.Keys
      invariant current in proxies && state0.Keys <= state.Keys
      invariant path == [] ==> current == name && ok
      invariant path != [] ==> path[0] == name
      invariant path != [] && ok ==> path[|path| - 1] in graph && graph[path[|path| - 1]] == current
      invariant path != [] && !ok ==> path[|path| - 1] !in graph
      decreases ok, proxies.Keys - Elements(path)
    {
      if current in state && state[current] == OnPath {
        MetItself(graph, proxies, state, path, current);
        return state, path, true, marked;
      }
      PathGrows(graph, state, rank, low, path, current, marked);
      state := state[current := OnPath];
      path := path + [current];
      marked := marked + [current];
      if current in graph {
        current := graph[current];
      } else {
        ok := false;
      }
    }
    cyclic := false;
    EndIsRanked(graph, state, rank, low, path, current);
  }

  lemma MetItself(graph: map<string, string>, proxies: map<string, string>, state: map<string, Colour>,
                  path: seq<string>, current: string)
    requires graph == map x | x in proxies && proxies[x] != "" :: proxies[x]
    requires PathOk(graph, state, path) && current in state && state[current] == OnPath
    requires path != [] ==> path[|path| - 1] in graph && graph[path[|path| - 1]] == current
    ensures path != [] && LeadsIntoCycle(proxies, path[0]) && !Acyclic(DialerGraph(proxies))
  {
    RevisitIsCycle(graph, proxies, path, current);
    assert (path + [current])[0] == path[0];
  }

  lemma EndIsRanked(graph: map<string, string>, state: map<string, Colour>, rank: map<string, int>, low: int,
                    path: seq<string>, current: string)
    requires FinishedOk(graph, state, rank, low) && PathOk(graph, state, path)
    ensures current in state && state[current] == Finished ==> current in rank
    ensures path != [] ==> path[0] in state
  {
    assert path != [] ==> path[0] in path;
  }

  /** Accepts exactly if every reference is found and no chain meets itself, with one mark per proxy at most. */
  method ValidateDialerProxies(proxies: map<string, string>)
    returns (err: Option<DialerError>, ghost marked: seq<string>)
    ensures err.None? <==> AllFound(proxies) && Acyclic(DialerGraph(proxies))
    ensures err.Some? && err.value.NotFound? ==>
              err.value.name in proxies && proxies[err.value.name] == err.value.dialer && err.value.dialer != "" &&
              err.value.dialer !in proxies
    ensures err.Some? && err.value.Circular? ==> AllFound(proxies) && LeadsIntoCycle(proxies, err.value.name)
    ensures Distinct(marked) && Elements(marked) <= proxies.Keys && |marked| <= |proxies|
  {
    hide FinishedOk; hide Distinct; hide LeadsIntoCycle; hide DialerGraph; hide Acyclic; hide PathRank; hide Finish;
    var graph;
    marked := [];
    NothingMarked();
    graph, err := CollectDialers(proxies);
    if err.Some? {
      return;
    }
    var state: map<string, Colour> := map[];
    ghost var rank: map<string, int>, low := map[], 0;
    NothingFinished(graph);
    var todo := graph.Keys;
    while todo != {}
      invariant todo <= graph.Keys
      invariant FinishedOk(graph, state, rank, low) && PathOk(graph, state, [])
      invariant Distinct(marked) && Elements(marked) == state.Keys <= proxies.Keys
      invariant forall x :: x in graph && x !in todo ==> x in state
    {
      var name :| name in todo;
      todo := todo - {name};
      var path, cyclic;
      state, path, cyclic, marked := WalkChain(proxies, graph, name, state, rank, low, marked);
      if cyclic {
        MarksFit(marked, proxies);
        return Some(Circular(name)), marked;
      }
      WalkFinished(graph, state, rank, low, path);
      FinishKeys(graph, state, path);
      rank, low := PathRank(rank, low, path), low - |path|;
      state := FinishPath(state, path);
    }
    MarksFit(marked, proxies);
    AllRanked(proxies, graph, state, rank, low);
  }

  method FinishPath(state0: map<string, Colour>, path: seq<string>) returns (state: map<string, Colour>)
    requires forall x :: x in path ==> x in state0
    ensures state == Finish(state0, path)
  {
    state := state0;
    for i := 0 to |path|
      invariant state == Finish(state0, path[..i])
    {
      state := state[path[i] := Finished];
    }
    assert path[..|path|] == path;
  }

  lemma NothingMarked()
    ensures Distinct([])
  {
  }

  lemma NothingFinished(graph: map<string, string>)
    ensures FinishedOk(graph, map[], map[], 0)
  {
  }

  lemma FinishKeys(graph: map<string, string>, state: map<string, Colour>, path: seq<string>)
    requires PathOk(graph, state, path)
    ensures Finish(state, path).Keys == state.Keys && PathOk(graph, Finish(state, path), [])
  {
  }

  lemma MarksFit(marked: seq<string>, proxies: map<string, string>)
    requires Distinct(marked) && Elements(marked) <= proxies.Keys
    ensures |marked| <= |proxies|
  {
    DistinctCount(marked);
    SubsetCount(Elements(marked), proxies.Keys);
  }

  lemma AllRanked(proxies: map<string, string>, graph: map<string, string>, state: map<string, Colour>,
                  rank: map<string, int>, low: int)
    requires graph == map x | x in proxies && proxies[x] != "" :: proxies[x]
    requires FinishedOk(graph, state, rank, low) && PathOk(graph, state, [])
    requires forall x :: x in graph ==> x in state
    ensures Acyclic(DialerGraph(proxies))
  {
    forall x, y | Edge(DialerGraph(proxies), x, y) ensures x in rank && y in rank && rank[x] < rank[y] {
      assert x in graph && graph[x] == y;
      assert x !in [];
    }
    RankedIsAcyclic(DialerGraph(proxies), rank);
  }
}
