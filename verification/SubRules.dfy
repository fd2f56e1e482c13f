/** The check of sub-rule references: a depth-first walk that carries its path in a shared slice. */
module SubRules {
  import opened Options
  import opened Graphs

  /** The parts of a rule that the check reads; `target` is the name that a sub-rule rule refers to. */
  datatype Rule = Rule(isSubRule: bool, target: string)

  type SubRuleMap = map<string, seq<Rule>>

  datatype VerifyError = Missing(index: nat, name: string, target: string) | CircularReferences(path: seq<string>)

  function SubGraph(sub: SubRuleMap): Graph {
    map n | n in sub :: set i | 0 <= i < |sub[n]| && sub[n][i].isSubRule :: sub[n][i].target
  }

  predicate AllResolve(sub: SubRuleMap) {
    forall n, i :: n in sub && 0 <= i < |sub[n]| && sub[n][i].isSubRule ==> sub[n][i].target in sub
  }

  /** What an error says is so. */
  predicate Justified(sub: SubRuleMap, e: VerifyError) {
    match e
    case Missing(i, n, target) =>
      n in sub && i < |sub[n]| && sub[n][i].isSubRule && sub[n][i].target == target && target !in sub
    case CircularReferences(p) => Walk(SubGraph(sub), p) && !Distinct(p)
  }

  /** A path that the walk can be on: distinct known names, each referring to the next. */
  predicate PathOk(sub: SubRuleMap, path: seq<string>) {
    && Distinct(path)
    && Elements(path) <= sub.Keys
    && forall i :: 0 <= i < |path| - 1 ==> Edge(SubGraph(sub), path[i], path[i + 1])
  }

  predicate MayVisit(sub: SubRuleMap, path: seq<string>, n: string) {
    PathOk(sub, path) && PathOk(sub, path + [n])
  }

  lemma OneLessToVisit(sub: SubRuleMap, path: seq<string>, n: string)
    requires MayVisit(sub, path, n)
    ensures |sub.Keys - Elements(path + [n])| < |sub.Keys - Elements(path)|
  {
    var rest, rest' := sub.Keys - Elements(path), sub.Keys - Elements(path + [n]);
    assert n in Elements(path + [n]);
    assert (path + [n])[|path|] == n;
    assert n !in path by {
      assert forall i :: 0 <= i < |path| ==> (path + [n])[i] == path[i];
    }
    assert rest == rest' + {n};
  }

  lemma PathExtends(sub: SubRuleMap, path: seq<string>, n: string, i: nat)
    requires PathOk(sub, path) && path != [] && path[|path| - 1] == n && n in sub && i < |sub[n]| && sub[n][i].isSubRule
    ensures Edge(SubGraph(sub), n, sub[n][i].target)
    ensures sub[n][i].target in sub && sub[n][i].target !in path ==> MayVisit(sub, path, sub[n][i].target)
    ensures sub[n][i].target in path ==> Justified(sub, CircularReferences(path + [sub[n][i].target]))
  {
    var target := sub[n][i].target;
    var p := path + [target];
    assert forall k :: 0 <= k < |path| ==> p[k] == path[k];
    if target in path {
      var k :| 0 <= k < |path| && path[k] == target;
      assert p[k] == p[|path|];
    }
  }

  // ----- the walk as a function of the path -----

  /** The first error found from `n`, the names on `path` being its ancestors. */
  function Check(sub: SubRuleMap, path: seq<string>, n: string): (e: Option<VerifyError>)
    requires MayVisit(sub, path, n)
    ensures e.Some? ==> Justified(sub, e.value)
    decreases |sub.Keys - Elements(path)|, 0, 0
  {
    OneLessToVisit(sub, path, n);
    assert n in Elements(path + [n]) by { assert (path + [n])[|path|] == n; }
    CheckRules(sub, path + [n], n, 0)
  }

  /** The first error found from the rules of `n` at or after the `i`-th. */
  function CheckRules(sub: SubRuleMap, path: seq<string>, n: string, i: nat): (e: Option<VerifyError>)
    requires PathOk(sub, path) && path != [] && path[|path| - 1] == n && n in sub && i <= |sub[n]|
    ensures e.Some? ==> Justified(sub, e.value)
    decreases |sub.Keys - Elements(path)|, 1, |sub[n]| - i
  {
    if i == |sub[n]| then None
    else if !sub[n][i].isSubRule then CheckRules(sub, path, n, i + 1)
    else
      var target := sub[n][i].target;
      PathExtends(sub, path, n, i);
      if target !in sub then Some(Missing(i, n, target))
      else if target in path then Some(CircularReferences(path + [target]))
      else
        var e := Check(sub, path, target);
        if e.Some? then e else CheckRules(sub, path, n, i + 1)
  }

  // ----- acceptance -----

  /** Where the walk finds no error, every reference resolves, leaves the path, and is itself free of errors. */
  lemma {:induction false} CleanRules(sub: SubRuleMap, path: seq<string>, n: string, i: nat, j: nat)
    requires PathOk(sub, path) && path != [] && path[|path| - 1] == n && n in sub && i <= j < |sub[n]|
    requires CheckRules(sub, path, n, i).None? && sub[n][j].isSubRule
    ensures sub[n][j].target in sub && sub[n][j].target !in path
    ensures MayVisit(sub, path, sub[n][j].target) && Check(sub, path, sub[n][j].target).None?
    decreases j - i
  {
    PathExtends(sub, path, n, j);
    if i < j {
      CleanRules(sub, path, n, i + 1, j);
    }
  }

  lemma CleanStep(sub: SubRuleMap, path: seq<string>, x: string, y: string)
    requires MayVisit(sub, path, x) && Check(sub, path, x).None? && Edge(SubGraph(sub), x, y)
    ensures y !in path + [x] && MayVisit(sub, path + [x], y) && Check(sub, path + [x], y).None?
  {
    var i :| 0 <= i < |sub[x]| && sub[x][i].isSubRule && sub[x][i].target == y;
    CleanRules(sub, path + [x], x, 0, i);
  }

  lemma RootMayBeVisited(sub: SubRuleMap, n: string)
    requires n in sub
    ensures MayVisit(sub, [], n)
  {
    assert [] + [n] == [n];
    assert Elements([n]) == {n};
  }

  /** Along any walk from a clean root the names stay distinct. */
  lemma {:induction false} CleanWalk(sub: SubRuleMap, p: seq<string>)
    requires Walk(SubGraph(sub), p) && p[0] in sub && MayVisit(sub, [], p[0]) && Check(sub, [], p[0]).None?
    ensures MayVisit(sub, p[..|p| - 1], p[|p| - 1]) && Check(sub, p[..|p| - 1], p[|p| - 1]).None?
    decreases |p|
  {
    if |p| == 1 {
      assert p[..0] == [];
    } else {
      var q := p[..|p| - 1];
      CleanWalk(sub, q);
      assert q[..|q| - 1] + [q[|q| - 1]] == q;
      CleanStep(sub, q[..|q| - 1], q[|q| - 1], p[|p| - 1]);
    }
  }

  ghost predicate AllClean(sub: SubRuleMap) {
    forall n :: n in sub ==> MayVisit(sub, [], n) && Check(sub, [], n).None?
  }

  lemma CleanIsAcyclic(sub: SubRuleMap)
    requires AllClean(sub)
    ensures AllResolve(sub) && Acyclic(SubGraph(sub))
  {
    forall n, i | n in sub && 0 <= i < |sub[n]| && sub[n][i].isSubRule ensures sub[n][i].target in sub {
      CleanRules(sub, [] + [n], n, 0, i);
    }
    forall p ensures !Cycle(SubGraph(sub), p) {
      if Cycle(SubGraph(sub), p) {
        assert Edge(SubGraph(sub), p[0], p[1]);
        assert p[..|p| - 1] + [p[|p| - 1]] == p;
        CleanWalk(sub, p);
      }
    }
  }

  lemma ErrorIsReal(sub: SubRuleMap, e: VerifyError)
    requires Justified(sub, e)
    ensures !(AllResolve(sub) && Acyclic(SubGraph(sub)))
  {
    if e.CircularReferences? {
      var c := RepeatMakesCycle(SubGraph(sub), e.path);
    }
  }

  // ----- the walk as the source runs it, on one growing buffer -----

  /** `append`: in place while there is room, which is where siblings meet. */
  method Append(buf: array<string>, len: nat, x: string, spare: nat) returns (arr: array<string>)
    requires len <= buf.Length
    modifies buf
    ensures len < arr.Length && arr[..len + 1] == old(buf[..len]) + [x]
    ensures arr == buf || fresh(arr)
    ensures buf[..len] == old(buf[..len])
  {
    if len < buf.Length {
      arr := buf;
      arr[len] := x;
    } else {
      arr := new string[len + 1 + spare];
      for i := 0 to len
        invariant arr[..i] == buf[..i] && buf[..] == old(buf[..])
      {
        arr[i] := buf[i];
      }
      arr[len] := x;
    }
  }

  method IsInArray(v: string, arr: array<string>, len: nat) returns (found: bool)
    requires len <= arr.Length
    ensures found == (v in arr[..len])
  {
    for i := 0 to len
      invariant v !in arr[..i]
    {
      if arr[i] == v {
        assert arr[..len][i] == v;
        return true;
      }
    }
    return false;
  }

  /** Computes `Check` although all calls share one buffer: nobody writes below the length its caller sees. */
  method VerifyCircularReferences(sub: SubRuleMap, n: string, buf: array<string>, len: nat, spare: nat)
    returns (e: Option<VerifyError>)
    requires len <= buf.Length && MayVisit(sub, buf[..len], n)
    modifies buf
    ensures e == Check(sub, old(buf[..len]), n)
    ensures buf[..len] == old(buf[..len])
    decreases |sub.Keys - Elements(buf[..len])|
  {
    hide MayVisit; hide PathOk; hide Justified; hide SubGraph;
    ghost var path := buf[..len];
    VisitedPath(sub, path, n);
    OneLessToVisit(sub, path, n);
    var arr := Append(buf, len, n, spare);
    ghost var path' := path + [n];
    for i := 0 to |sub[n]|
      invariant arr[..len + 1] == path' && buf[..len] == path
      invariant Check(sub, path, n) == CheckRules(sub, path', n, i)
    {
      var rule := sub[n][i];
      if rule.isSubRule {
        PathExtends(sub, path', n, i);
        if rule.target !in sub {
          return Some(Missing(i, n, rule.target));
        }
        var onPath := IsInArray(rule.target, arr, len + 1);
        if onPath {
          return Some(CircularReferences(arr[..len + 1] + [rule.target]));
        }
        e := VerifyCircularReferences(sub, rule.target, arr, len + 1, spare);
        assert arr == buf ==> buf[..len] == arr[..len + 1][..len];
        if e.Some? {
          return;
        }
      }
    }
    e := None;
  }

  lemma VisitedPath(sub: SubRuleMap, path: seq<string>, n: string)
    requires MayVisit(sub, path, n)
    ensures PathOk(sub, path + [n]) && n in sub
  {
    assert (path + [n])[|path|] == n;
    assert n in Elements(path + [n]);
  }

  /** Accepts exactly the maps in which every reference resolves and no chain of references comes back. */
  method VerifySubRule(sub: SubRuleMap, spare: nat) returns (e: Option<VerifyError>)
    ensures e.None? <==> AllResolve(sub) && Acyclic(SubGraph(sub))
    ensures e.Some? ==> Justified(sub, e.value)
  {
    hide AllResolve; hide SubGraph; hide Justified; hide MayVisit; hide Acyclic;
    var todo := sub.Keys;
    while todo != {}
      invariant todo <= sub.Keys
      invariant forall n :: n in sub && n !in todo ==> MayVisit(sub, [], n) && Check(sub, [], n).None?
    {
      var name :| name in todo;
      todo := todo - {name};
      RootMayBeVisited(sub, name);
      var buf := new string[0];
      assert buf[..0] == [];
      e := VerifyCircularReferences(sub, name, buf, 0, spare);
      if e.Some? {
        ErrorIsReal(sub, e.value);
        return;
      }
    }
    CleanIsAcyclic(sub);
    e := None;
  }
}
