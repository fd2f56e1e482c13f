/** The rule walk: rules are scanned in order, and a Rematch adapter restarts the scan on changed metadata. */
module RuleMatch {
  import opened Options
  import opened Graphs
  import ProxyGroups
  import GroupGraph

  datatype Kind = Pass | Rematch | Smart | Other

  /** An outbound; `group` tells a proxy group from a plain proxy, which never unwraps. */
  datatype Adapter = Adapter(name: string, kind: Kind, group: bool,
                             targetRematchName: Option<string>, targetSubRule: Option<string>)

  /** `smartTarget` is what the rule writes for smart groups, if it is of a type that does. */
  datatype Rule = Rule(id: nat, smartTarget: Option<string>)

  datatype Metadata = Metadata(isUDP: bool, specialRules: string, rematchName: string, smartTarget: string,
                               smartBlock: string, rest: nat)

  /**
   The tables of the tunnel and the calls into rules and groups; a group supports UDP if its current
   choice does.  `groups` is the sorted list
   of configured groups; without a group called GLOBAL among them, one over everything is added.
   */
  datatype Tunnel = Tunnel(rules: seq<Rule>, subRules: map<string, seq<Rule>>, proxies: map<string, Adapter>,
                           groups: seq<GroupGraph.Group>,
                           matches: (Rule, Metadata) -> Option<string>,
                           unwrap: (Adapter, Metadata) -> Option<Adapter>,
                           supportsUDP: Adapter -> bool,
                           rematchNames: set<string>)

  const GLOBAL := "GLOBAL"

  /** The added group, which no configured group can refer to. */
  predicate IsAddedGlobal(t: Tunnel, a: Adapter) {
    a.group && a.name == GLOBAL && GLOBAL !in GroupGraph.Names(t.groups)
  }

  /** A group unwraps to one of its members: a plain proxy, or a configured group that it lists. */
  predicate IsMember(t: Tunnel, a: Adapter, b: Adapter) {
    && a.group
    && (b.group ==> b.name in GroupGraph.Names(t.groups))
    && (!IsAddedGlobal(t, a) ==>
          exists i :: 0 <= i < |t.groups| && t.groups[i].name == a.name && (b.group ==> b.name in t.groups[i].proxies))
  }

  /**
   The groups are as the sort leaves them, what is unwrapped is a member, and `rematchNames` holds
   the names of all Rematch adapters.
   */
  ghost predicate TunnelOk(t: Tunnel) {
    && ProxyGroups.DependencyOrder(t.groups) && GroupGraph.DistinctNames(t.groups)
    && (forall a, m :: t.unwrap(a, m).Some? ==> IsMember(t, a, t.unwrap(a, m).value))
    && (forall a, m :: t.unwrap(a, m).Some? && t.unwrap(a, m).value.kind.Rematch? ==>
          t.unwrap(a, m).value.name in t.rematchNames)
    && (forall n :: n in t.proxies && t.proxies[n].kind.Rematch? ==> t.proxies[n].name in t.rematchNames)
  }

  /** Loading the configured groups: a sort that succeeds leaves them as `TunnelOk` asks. */
  method SortGroups(configured: array<GroupGraph.Group>) returns (sorted: bool)
    modifies configured
    ensures sorted ==> ProxyGroups.DependencyOrder(configured[..]) && GroupGraph.DistinctNames(configured[..])
    ensures sorted <==>
      GroupGraph.FirstError(old(configured[..])).None? && Acyclic(GroupGraph.GraphOf(old(configured[..])))
  {
    hide ProxyGroups.DependencyOrder, GroupGraph.FirstError, Acyclic, GroupGraph.DistinctNames;
    ghost var before := configured[..];
    var result := ProxyGroups.ProxyGroupsDagSort(configured);
    sorted := result.Sorted?;
    if sorted {
      GroupGraph.NoErrorMeansDistinct(before);
      GroupGraph.DistinctNamesPermute(before, configured[..]);
    }
  }

  /** The place of a group in the list, counted from 1. */
  function GroupRank(groups: seq<GroupGraph.Group>, name: string): nat {
    if groups == [] then 0
    else if groups[|groups| - 1].name == name then |groups|
    else GroupRank(groups[..|groups| - 1], name)
  }

  lemma {:induction false} GroupRankIsIndex(groups: seq<GroupGraph.Group>, name: string)
    ensures GroupRank(groups, name) <= |groups|
    ensures GroupRank(groups, name) > 0 ==> groups[GroupRank(groups, name) - 1].name == name
    ensures GroupRank(groups, name) == 0 ==> forall i :: 0 <= i < |groups| ==> groups[i].name != name
  {
    if groups != [] && groups[|groups| - 1].name != name {
      GroupRankIsIndex(groups[..|groups| - 1], name);
    }
  }

  lemma MembersRankLower(groups: seq<GroupGraph.Group>, i: nat, member: string)
    requires ProxyGroups.DependencyOrder(groups) && GroupGraph.DistinctNames(groups)
    requires i < |groups| && member in groups[i].proxies
    ensures GroupRank(groups, member) < GroupRank(groups, groups[i].name)
  {
    GroupRankIsIndex(groups, member);
    GroupRankIsIndex(groups, groups[i].name);
    var k := GroupRank(groups, groups[i].name) - 1;
    assert groups[k].name == groups[i].name;
    assert k == i;
  }

  /** How many layers an adapter can have at most, read off the sorted list. */
  function Rank(t: Tunnel, a: Adapter): nat {
    if !a.group then 0 else if IsAddedGlobal(t, a) then |t.groups| + 1 else GroupRank(t.groups, a.name)
  }

  /** Every unwrapping goes down in the order of the groups, so it ends. */
  lemma UnwrapGoesDown(t: Tunnel, a: Adapter, m: Metadata)
    requires TunnelOk(t) && t.unwrap(a, m).Some?
    ensures Rank(t, t.unwrap(a, m).value) < Rank(t, a) <= |t.groups| + 1
  {
    hide GroupRank;
    var b := t.unwrap(a, m).value;
    assert IsMember(t, a, b);
    GroupRankIsIndex(t.groups, a.name);
    GroupRankIsIndex(t.groups, b.name);
    if !IsAddedGlobal(t, a) {
      var i :| 0 <= i < |t.groups| && t.groups[i].name == a.name && (b.group ==> b.name in t.groups[i].proxies);
      if b.group {
        MembersRankLower(t.groups, i, b.name);
      }
    }
  }

  // ----- unwrapping one adapter -----

  /** The adapter and everything it unwraps to. */
  function Layers(t: Tunnel, a: Adapter, m: Metadata): seq<Adapter>
    requires TunnelOk(t)
    decreases Rank(t, a)
  {
    [a] + match t.unwrap(a, m)
          case None => []
          case Some(b) => UnwrapGoesDown(t, a, m); Layers(t, b, m)
  }

  /** The walk over an adapter's layers has at most two steps more than there are groups. */
  lemma {:induction false} LayersAreBounded(t: Tunnel, a: Adapter, m: Metadata)
    requires TunnelOk(t)
    ensures |Layers(t, a, m)| <= Rank(t, a) + 1 <= |t.groups| + 2
    decreases Rank(t, a)
  {
    hide TunnelOk;
    RankIsBounded(t, a);
    if t.unwrap(a, m).Some? {
      UnwrapGoesDown(t, a, m);
      LayersAreBounded(t, t.unwrap(a, m).value, m);
    }
  }

  lemma RankIsBounded(t: Tunnel, a: Adapter)
    ensures Rank(t, a) <= |t.groups| + 1
  {
    GroupRankIsIndex(t.groups, a.name);
  }

  predicate Diverts(a: Adapter) {
    a.kind.Pass? || a.kind.Rematch?
  }

  datatype Unwrapped = Passed | Rematched(via: Adapter) | Plain(smart: bool)

  ghost predicate AnySmart(layers: seq<Adapter>) {
    exists j :: 0 <= j < |layers| && layers[j].kind.Smart?
  }

  lemma AnySmartOneMore(layers: seq<Adapter>, a: Adapter)
    ensures AnySmart(layers + [a]) <==> AnySmart(layers) || a.kind.Smart?
  {
    if AnySmart(layers) {
      var j :| 0 <= j < |layers| && layers[j].kind.Smart?;
      assert (layers + [a])[j].kind.Smart?;
    }
    if a.kind.Smart? {
      assert (layers + [a])[|layers|].kind.Smart?;
    }
  }

  /** What an adapter comes to, told by its layers: the first Pass or Rematch decides. */
  ghost predicate ComesTo(layers: seq<Adapter>, u: Unwrapped) {
    match u
    case Passed =>
      exists i :: 0 <= i < |layers| && layers[i].kind.Pass? && forall j :: 0 <= j < i ==> !Diverts(layers[j])
    case Rematched(via) =>
      && via.kind.Rematch?
      && exists i :: 0 <= i < |layers| && layers[i] == via && forall j :: 0 <= j < i ==> !Diverts(layers[j])
    case Plain(smart) =>
      && (forall j :: 0 <= j < |layers| ==> !Diverts(layers[j]))
      && (smart <==> AnySmart(layers))
  }

  lemma ComesToOneThing(layers: seq<Adapter>, u: Unwrapped, v: Unwrapped)
    requires ComesTo(layers, u) && ComesTo(layers, v)
    ensures u == v
  {
    if !u.Plain? {
      var i :| 0 <= i < |layers| && Diverts(layers[i]) && (forall j :: 0 <= j < i ==> !Diverts(layers[j])) &&
               u == if layers[i].kind.Pass? then Passed else Rematched(layers[i]);
      if !v.Plain? {
        var k :| 0 <= k < |layers| && Diverts(layers[k]) && (forall j :: 0 <= j < k ==> !Diverts(layers[j])) &&
                 v == if layers[k].kind.Pass? then Passed else Rematched(layers[k]);
        assert i == k;
      }
    }
  }

  /** The layers inside one adapter. */
  function Below(t: Tunnel, a: Option<Adapter>, m: Metadata): seq<Adapter>
    requires TunnelOk(t)
  {
    match a
    case None => []
    case Some(b) => Layers(t, b, m)
  }

  lemma OneLayer(t: Tunnel, a: Adapter, m: Metadata)
    requires TunnelOk(t)
    ensures Layers(t, a, m) == [a] + Below(t, t.unwrap(a, m), m)
    ensures t.unwrap(a, m).Some? ==> Rank(t, t.unwrap(a, m).value) < Rank(t, a)
    ensures t.unwrap(a, m).Some? && t.unwrap(a, m).value.kind.Rematch? ==> t.unwrap(a, m).value.name in t.rematchNames
  {
    if t.unwrap(a, m).Some? {
      UnwrapGoesDown(t, a, m);
    }
  }

  lemma FirstDiversion(layers: seq<Adapter>, seen: seq<Adapter>, a: Adapter, rest: seq<Adapter>)
    requires layers == seen + ([a] + rest) && Diverts(a) && forall j :: 0 <= j < |seen| ==> !Diverts(seen[j])
    ensures ComesTo(layers, if a.kind.Pass? then Passed else Rematched(a))
  {
    assert layers[|seen|] == a;
  }

  method UnwrapAdapter(t: Tunnel, a: Adapter, m: Metadata) returns (u: Unwrapped)
    requires TunnelOk(t) && (a.kind.Rematch? ==> a.name in t.rematchNames)
    ensures ComesTo(Layers(t, a, m), u)
    ensures u.Rematched? ==> u.via.name in t.rematchNames
  {
    hide TunnelOk; hide Layers; hide AnySmart;
    ghost var layers := Layers(t, a, m);
    ghost var seen: seq<Adapter> := [];
    assert !AnySmart(seen) by { NoneSmart(); }
    var current, smart := Some(a), false;
    while current.Some?
      invariant layers == seen + Below(t, current, m)
      invariant forall j :: 0 <= j < |seen| ==> !Diverts(seen[j])
      invariant smart <==> AnySmart(seen)
      invariant current.Some? && current.value.kind.Rematch? ==> current.value.name in t.rematchNames
      decreases if current.Some? then Rank(t, current.value) + 1 else 0
    {
      var adapter := current.value;
      ghost var rest := Below(t, t.unwrap(adapter, m), m);
      OneLayer(t, adapter, m);
      if adapter.kind.Smart? {
        smart := true;
      }
      if adapter.kind.Pass? {
        FirstDiversion(layers, seen, adapter, rest);
        return Passed;
      }
      if adapter.kind.Rematch? {
        FirstDiversion(layers, seen, adapter, rest);
        return Rematched(adapter);
      }
      AnySmartOneMore(seen, adapter);
      assert seen + ([adapter] + rest) == (seen + [adapter]) + rest;
      seen := seen + [adapter];
      current := t.unwrap(adapter, m);
    }
    assert layers == seen;
    return Plain(smart);
  }

  lemma NoneSmart()
    ensures !AnySmart([])
  {
  }

  // ----- scanning one rule list -----

  datatype Decision = Skip | Accept(adapter: Adapter) | Restart(via: Adapter)

  /** The metadata after a rule has matched an existing adapter and before the adapter is unwrapped. */
  function Marked(r: Rule, m: Metadata): Metadata {
    if r.smartTarget.Some? then m.(smartTarget := r.smartTarget.value) else m
  }

  function Settled(m: Metadata, smart: bool): Metadata {
    if smart then m.(smartBlock := "normal") else m.(smartTarget := "")
  }

  function TargetOf(t: Tunnel, r: Rule, m: Metadata): Option<Adapter> {
    match t.matches(r, m)
    case None => None
    case Some(name) => if name in t.proxies then Some(t.proxies[name]) else None
  }

  /** What rule `r` does with metadata `m`, and the metadata it leaves for the next rule. */
  ghost predicate Decides(t: Tunnel, r: Rule, m: Metadata, d: Decision, m': Metadata)
    requires TunnelOk(t)
  {
    match TargetOf(t, r, m)
    case None => d == Skip && m' == m
    case Some(a) =>
      var layers := Layers(t, a, Marked(r, m));
      || (ComesTo(layers, Passed) && d == Skip && m' == Marked(r, m))
      || (exists b :: ComesTo(layers, Rematched(b)) && d == Restart(b) && m' == Marked(r, m))
      || (exists s :: ComesTo(layers, Plain(s)) && m' == Settled(Marked(r, m), s) &&
                      d == if m.isUDP && !t.supportsUDP(a) then Skip else Accept(a))
  }

  method DecideRule(t: Tunnel, r: Rule, m: Metadata) returns (d: Decision, m': Metadata)
    requires TunnelOk(t)
    ensures Decides(t, r, m, d, m') && m'.isUDP == m.isUDP
    ensures d.Restart? ==> d.via.name in t.rematchNames
  {
    var target := TargetOf(t, r, m);
    if target.None? {
      return Skip, m;
    }
    var a := target.value;
    m' := Marked(r, m);
    var u := UnwrapAdapter(t, a, m');
    match u
    case Passed => d := Skip;
    case Rematched(b) => d := Restart(b);
    case Plain(smart) =>
      m' := Settled(m', smart);
      d := if m.isUDP && !t.supportsUDP(a) then Skip else Accept(a);
  }

  /** Rules `0..k` of a list skip, starting from `m`, and leave `m'`. */
  ghost predicate SkipsTo(t: Tunnel, rules: seq<Rule>, m: Metadata, k: nat, m': Metadata)
    requires TunnelOk(t) && k <= |rules|
  {
    if k == 0 then m' == m
    else
      var j, r := k - 1, rules[k - 1];
      exists m1 :: SkipsTo(t, rules, m, j, m1) && Decides(t, r, m1, Skip, m')
  }

  /** The outcome of one scan: the first rule that does not skip, or none. */
  ghost predicate ScanGives(t: Tunnel, rules: seq<Rule>, m: Metadata, found: Option<(nat, Decision)>, m': Metadata)
    requires TunnelOk(t)
  {
    match found
    case None => SkipsTo(t, rules, m, |rules|, m')
    case Some((k, d)) =>
      k < |rules| && !d.Skip? && exists m1 :: SkipsTo(t, rules, m, k, m1) && Decides(t, rules[k], m1, d, m')
  }

  lemma SkipsNone(t: Tunnel, rules: seq<Rule>, m: Metadata)
    requires TunnelOk(t)
    ensures SkipsTo(t, rules, m, 0, m)
  {
  }

  lemma SkipsOneMore(t: Tunnel, rules: seq<Rule>, m0: Metadata, k: nat, m: Metadata, m': Metadata)
    requires TunnelOk(t) && k < |rules| && SkipsTo(t, rules, m0, k, m) && Decides(t, rules[k], m, Skip, m')
    ensures SkipsTo(t, rules, m0, k + 1, m')
  {
    hide Decides; hide TunnelOk;
  }

  method ScanRules(t: Tunnel, rules: seq<Rule>, m0: Metadata) returns (found: Option<(nat, Decision)>, m: Metadata)
    requires TunnelOk(t)
    ensures ScanGives(t, rules, m0, found, m)
    ensures found.Some? && found.value.1.Restart? ==> found.value.1.via.name in t.rematchNames
  {
    hide Decides; hide TunnelOk; hide SkipsTo;
    SkipsNone(t, rules, m0);
    m := m0;
    for k := 0 to |rules|
      invariant SkipsTo(t, rules, m0, k, m)
    {
      var d, m' := DecideRule(t, rules[k], m);
      if !d.Skip? {
        return Some((k, d)), m';
      }
      SkipsOneMore(t, rules, m0, k, m, m');
      m := m';
    }
    found := None;
  }

  // ----- rounds -----

  function GetRules(t: Tunnel, m: Metadata): seq<Rule> {
    if m.specialRules in t.subRules then t.subRules[m.specialRules] else t.rules
  }

  /** `Rematch.applyMetadata` */
  function ApplyRematch(a: Adapter, m: Metadata): Metadata {
    var m1 := if a.targetRematchName.Some? then m.(rematchName := a.targetRematchName.value) else m;
    if a.targetSubRule.Some? then m1.(specialRules := a.targetSubRule.value) else m1
  }

  /** One finished round: the metadata it began with and the Rematch adapter that ended it. */
  datatype Round = Round(start: Metadata, via: Adapter)

  /** Every round scanned the rules of its own metadata, ended in its Rematch adapter, and set up the next one. */
  ghost predicate RoundsOk(t: Tunnel, m0: Metadata, rounds: seq<Round>, m: Metadata)
    requires TunnelOk(t)
  {
    if rounds == [] then m == m0
    else
      var last := rounds[|rounds| - 1];
      && RoundsOk(t, m0, rounds[..|rounds| - 1], last.start)
      && exists k: nat, m1 :: ScanGives(t, GetRules(t, last.start), last.start, Some((k, Restart(last.via))), m1) &&
                         m == ApplyRematch(last.via, m1)
  }

  function RoundNames(rounds: seq<Round>): seq<string> {
    seq(|rounds|, i requires 0 <= i < |rounds| => rounds[i].via.name)
  }

  datatype MatchResult = MatchResult(adapter: Option<Adapter>, rule: Option<Rule>)

  /** What the last round, begun with `m`, makes of the result. */
  ghost predicate LastRoundGives(t: Tunnel, m: Metadata, names: seq<string>, r: MatchResult)
    requires TunnelOk(t)
  {
    var rules := GetRules(t, m);
    || (r == MatchResult(if "DIRECT" in t.proxies then Some(t.proxies["DIRECT"]) else None, None)
        && exists m1 :: ScanGives(t, rules, m, None, m1))
    || (exists k: nat, a, m1 ::
          ScanGives(t, rules, m, Some((k, Accept(a))), m1) && r == MatchResult(Some(a), Some(rules[k])))
    || (exists k: nat, a, m1 ::
          && ScanGives(t, rules, m, Some((k, Restart(a))), m1) && a.name in names
          && r == MatchResult(Some(a), Some(rules[k])))
  }

  lemma RoundAdded(t: Tunnel, m0: Metadata, rounds: seq<Round>, m: Metadata, k: nat, via: Adapter, m1: Metadata)
    requires TunnelOk(t) && RoundsOk(t, m0, rounds, m)
    requires ScanGives(t, GetRules(t, m), m, Some((k, Restart(via))), m1)
    ensures RoundsOk(t, m0, rounds + [Round(m, via)], ApplyRematch(via, m1))
    ensures RoundNames(rounds + [Round(m, via)]) == RoundNames(rounds) + [via.name]
  {
    hide ScanGives; hide TunnelOk;
    var rounds' := rounds + [Round(m, via)];
    assert rounds'[..|rounds'| - 1] == rounds;
  }

  lemma ChainFits(t: Tunnel, chain: seq<string>)
    requires Distinct(chain) && Elements(chain) <= t.rematchNames
    ensures |chain| <= |t.rematchNames|
  {
    DistinctCount(chain);
    SubsetCount(Elements(chain), t.rematchNames);
  }

  /**
   What a match gives: finished rounds whose Rematch adapters have different names, at most one
   round per Rematch name, and a last round that decides: its first rule that does not skip, or
   DIRECT, or the Rematch adapter that was seen before.
   */
  ghost predicate GivesAfter(t: Tunnel, m0: Metadata, rounds: seq<Round>, m: Metadata, r: MatchResult)
    requires TunnelOk(t)
  {
    && RoundsOk(t, m0, rounds, m) && Distinct(RoundNames(rounds)) && |rounds| <= |t.rematchNames|
    && LastRoundGives(t, m, RoundNames(rounds), r)
  }

  ghost predicate MatchGives(t: Tunnel, m0: Metadata, r: MatchResult)
    requires TunnelOk(t)
  {
    exists rounds, m :: GivesAfter(t, m0, rounds, m, r)
  }

  method Match(t: Tunnel, m0: Metadata) returns (r: MatchResult)
    requires TunnelOk(t)
    ensures MatchGives(t, m0, r)
  {
    hide TunnelOk; hide RoundsOk; hide ScanGives;
    var chain: seq<string> := [];
    var current := m0;
    ghost var rounds := [];
    NoRounds(t, m0);
    while true
      invariant RoundsOk(t, m0, rounds, current) && chain == RoundNames(rounds)
      invariant Distinct(chain) && Elements(chain) <= t.rematchNames
      decreases |t.rematchNames| - |chain|
    {
      ChainFits(t, chain);
      var rules := GetRules(t, current);
      var found, m1 := ScanRules(t, rules, current);
      if found.None? {
        r := MatchResult(if "DIRECT" in t.proxies then Some(t.proxies["DIRECT"]) else None, None);
        assert GivesAfter(t, m0, rounds, current, r);
        return;
      }
      var (k, d) := found.value;
      FoundIndex(t, rules, current, k, d, m1);
      if d.Accept? {
        r := MatchResult(Some(d.adapter), Some(rules[k]));
        assert GivesAfter(t, m0, rounds, current, r);
        return;
      }
      if d.via.name in chain {
        r := MatchResult(Some(d.via), Some(rules[k]));
        assert GivesAfter(t, m0, rounds, current, r);
        return;
      }
      RoundAdded(t, m0, rounds, current, k, d.via, m1);
      rounds := rounds + [Round(current, d.via)];
      chain := chain + [d.via.name];
      assert Elements(chain) == Elements(chain[..|chain| - 1]) + {d.via.name};
      current := ApplyRematch(d.via, m1);
      ChainFits(t, chain);
    }
  }

  lemma NoRounds(t: Tunnel, m: Metadata)
    requires TunnelOk(t)
    ensures RoundsOk(t, m, [], m)
  {
  }

  lemma FoundIndex(t: Tunnel, rules: seq<Rule>, m: Metadata, k: nat, d: Decision, m': Metadata)
    requires TunnelOk(t) && ScanGives(t, rules, m, Some((k, d)), m')
    ensures k < |rules| && !d.Skip?
  {
  }

  // ----- the specification leaves no choice -----

  lemma DecidesOnce(t: Tunnel, r: Rule, m: Metadata, d: Decision, m1: Metadata, e: Decision, m2: Metadata)
    requires TunnelOk(t) && Decides(t, r, m, d, m1) && Decides(t, r, m, e, m2)
    ensures d == e && m1 == m2
  {
    hide ComesTo; hide Layers; hide TunnelOk;
    match TargetOf(t, r, m)
    case None =>
    case Some(a) =>
      var layers := Layers(t, a, Marked(r, m));
      var u :| ComesTo(layers, u) && Outcome(t, r, m, a, u, d, m1);
      var v :| ComesTo(layers, v) && Outcome(t, r, m, a, v, e, m2);
      ComesToOneThing(layers, u, v);
      OutcomeOnce(t, r, m, a, u, d, m1, e, m2);
  }

  lemma OutcomeOnce(t: Tunnel, r: Rule, m: Metadata, a: Adapter, u: Unwrapped, d: Decision, m1: Metadata,
                    e: Decision, m2: Metadata)
    requires Outcome(t, r, m, a, u, d, m1) && Outcome(t, r, m, a, u, e, m2)
    ensures d == e && m1 == m2
  {
  }

  predicate Outcome(t: Tunnel, r: Rule, m: Metadata, a: Adapter, u: Unwrapped, d: Decision, m': Metadata) {
    match u
    case Passed => d == Skip && m' == Marked(r, m)
    case Rematched(b) => d == Restart(b) && m' == Marked(r, m)
    case Plain(s) => m' == Settled(Marked(r, m), s) && d == if m.isUDP && !t.supportsUDP(a) then Skip else Accept(a)
  }

  lemma {:induction false} SkipsOnce(t: Tunnel, rules: seq<Rule>, m: Metadata, k: nat, m1: Metadata, m2: Metadata)
    requires TunnelOk(t) && k <= |rules| && SkipsTo(t, rules, m, k, m1) && SkipsTo(t, rules, m, k, m2)
    ensures m1 == m2
  {
    hide Decides; hide TunnelOk;
    if k > 0 {
      var a :| SkipsTo(t, rules, m, k - 1, a) && Decides(t, rules[k - 1], a, Skip, m1);
      var b :| SkipsTo(t, rules, m, k - 1, b) && Decides(t, rules[k - 1], b, Skip, m2);
      SkipsOnce(t, rules, m, k - 1, a, b);
      DecidesOnce(t, rules[k - 1], a, Skip, m1, Skip, m2);
    }
  }

  lemma {:induction false} SkipsBefore(t: Tunnel, rules: seq<Rule>, m: Metadata, k: nat, j: nat, m': Metadata)
    returns (before: Metadata, after: Metadata)
    requires TunnelOk(t) && j < k <= |rules| && SkipsTo(t, rules, m, k, m')
    ensures SkipsTo(t, rules, m, j, before) && Decides(t, rules[j], before, Skip, after)
  {
    hide Decides; hide TunnelOk;
    var a :| SkipsTo(t, rules, m, k - 1, a) && Decides(t, rules[k - 1], a, Skip, m');
    if j == k - 1 {
      before, after := a, m';
    } else {
      before, after := SkipsBefore(t, rules, m, k - 1, j, a);
    }
  }

  /** A rule that does not skip is not among those skipped. */
  lemma FoundIsNotSkipped(t: Tunnel, rules: seq<Rule>, m: Metadata, k: nat, d: Decision, m1: Metadata, n: nat,
                          m2: Metadata)
    requires TunnelOk(t) && ScanGives(t, rules, m, Some((k, d)), m1) && n <= |rules| && SkipsTo(t, rules, m, n, m2)
    ensures n <= k
  {
    hide Decides; hide TunnelOk; hide SkipsTo;
    if k < n {
      var a :| SkipsTo(t, rules, m, k, a) && Decides(t, rules[k], a, d, m1);
      var b, c := SkipsBefore(t, rules, m, n, k, m2);
      SkipsOnce(t, rules, m, k, a, b);
      DecidesOnce(t, rules[k], a, d, m1, Skip, c);
    }
  }

  lemma ScanGivesOnce(t: Tunnel, rules: seq<Rule>, m: Metadata, f: Option<(nat, Decision)>, m1: Metadata,
                      g: Option<(nat, Decision)>, m2: Metadata)
    requires TunnelOk(t) && ScanGives(t, rules, m, f, m1) && ScanGives(t, rules, m, g, m2)
    ensures f == g && m1 == m2
  {
    hide Decides; hide TunnelOk; hide SkipsTo;
    if f.None? && g.None? {
      SkipsOnce(t, rules, m, |rules|, m1, m2);
    } else if f.None? {
      FoundIsNotSkipped(t, rules, m, g.value.0, g.value.1, m2, |rules|, m1);
    } else if g.None? {
      FoundIsNotSkipped(t, rules, m, f.value.0, f.value.1, m1, |rules|, m2);
    } else {
      var (k, d) := f.value;
      var (j, e) := g.value;
      var a :| SkipsTo(t, rules, m, k, a) && Decides(t, rules[k], a, d, m1);
      var b :| SkipsTo(t, rules, m, j, b) && Decides(t, rules[j], b, e, m2);
      FoundIsNotSkipped(t, rules, m, k, d, m1, j, b);
      FoundIsNotSkipped(t, rules, m, j, e, m2, k, a);
      SkipsOnce(t, rules, m, k, a, b);
      DecidesOnce(t, rules[k], a, d, m1, e, m2);
    }
  }

  /** Given the metadata and the names of the rounds before it, the last round has one result. */
  lemma LastRoundGivesOnce(t: Tunnel, m: Metadata, names: seq<string>, r: MatchResult, s: MatchResult)
    requires TunnelOk(t) && LastRoundGives(t, m, names, r) && LastRoundGives(t, m, names, s)
    ensures r == s
  {
    hide ScanGives; hide TunnelOk;
    var rules := GetRules(t, m);
    var f, m1 := ScanBehind(t, m, names, r);
    var g, m2 := ScanBehind(t, m, names, s);
    ScanGivesOnce(t, rules, m, f, m1, g, m2);
  }

  function ResultOf(t: Tunnel, rules: seq<Rule>, found: Option<(nat, Decision)>): MatchResult
    requires found.Some? ==> found.value.0 < |rules| && !found.value.1.Skip?
  {
    match found
    case None => MatchResult(if "DIRECT" in t.proxies then Some(t.proxies["DIRECT"]) else None, None)
    case Some((k, Accept(a))) => MatchResult(Some(a), Some(rules[k]))
    case Some((k, Restart(a))) => MatchResult(Some(a), Some(rules[k]))
  }

  lemma ScanBehind(t: Tunnel, m: Metadata, names: seq<string>, r: MatchResult)
    returns (f: Option<(nat, Decision)>, m1: Metadata)
    requires TunnelOk(t) && LastRoundGives(t, m, names, r)
    ensures ScanGives(t, GetRules(t, m), m, f, m1)
    ensures f.Some? ==> f.value.0 < |GetRules(t, m)| && !f.value.1.Skip?
    ensures r == ResultOf(t, GetRules(t, m), f)
  {
    hide SkipsTo; hide TunnelOk; hide Decides;
    f, m1 :| ScanGives(t, GetRules(t, m), m, f, m1) && r == ResultOf(t, GetRules(t, m), f);
  }

  /** The metadata a round begins with, the last one beginning with `m`. */
  function StartOf(rounds: seq<Round>, m: Metadata, k: nat): Metadata
    requires k <= |rounds|
  {
    if k == |rounds| then m else rounds[k].start
  }

  lemma {:induction false} RoundsBefore(t: Tunnel, m0: Metadata, rounds: seq<Round>, m: Metadata, k: nat)
    requires TunnelOk(t) && RoundsOk(t, m0, rounds, m) && k <= |rounds|
    ensures RoundsOk(t, m0, rounds[..k], StartOf(rounds, m, k))
    decreases |rounds|
  {
    hide TunnelOk; hide ScanGives;
    if k < |rounds| {
      var init := rounds[..|rounds| - 1];
      RoundsBefore(t, m0, init, rounds[|rounds| - 1].start, k);
      assert init[..k] == rounds[..k];
    } else {
      assert rounds[..k] == rounds;
    }
  }

  /** One more round from the same start is the same round. */
  lemma SameNextRound(t: Tunnel, m0: Metadata, a: seq<Round>, ma: Metadata, b: seq<Round>, mb: Metadata)
    requires TunnelOk(t) && a != [] && |a| == |b| && RoundsOk(t, m0, a, ma) && RoundsOk(t, m0, b, mb)
    requires a[|a| - 1].start == b[|b| - 1].start
    ensures a[|a| - 1] == b[|b| - 1] && ma == mb
  {
    hide TunnelOk; hide ScanGives;
    var x, y := a[|a| - 1], b[|b| - 1];
    var j: nat, m1 :| ScanGives(t, GetRules(t, x.start), x.start, Some((j, Restart(x.via))), m1)
                       && ma == ApplyRematch(x.via, m1);
    var k: nat, m2 :| ScanGives(t, GetRules(t, y.start), y.start, Some((k, Restart(y.via))), m2)
                       && mb == ApplyRematch(y.via, m2);
    ScanGivesOnce(t, GetRules(t, x.start), x.start, Some((j, Restart(x.via))), m1, Some((k, Restart(y.via))), m2);
  }

  lemma {:induction false} RoundsAgree(t: Tunnel, m0: Metadata, a: seq<Round>, ma: Metadata, b: seq<Round>,
                                       mb: Metadata)
    requires TunnelOk(t) && |a| <= |b| && RoundsOk(t, m0, a, ma) && RoundsOk(t, m0, b, mb)
    ensures a == b[..|a|] && ma == StartOf(b, mb, |a|)
    decreases |a|
  {
    hide TunnelOk; hide RoundsOk;
    var n := |a|;
    RoundsBefore(t, m0, b, mb, n);
    if n == 0 {
      NoRoundsStart(t, m0, ma);
      NoRoundsStart(t, m0, StartOf(b, mb, 0));
      assert b[..0] == a;
    } else {
      RoundsBefore(t, m0, a, ma, n - 1);
      RoundsAgree(t, m0, a[..n - 1], a[n - 1].start, b, mb);
      SameNextRound(t, m0, a, ma, b[..n], StartOf(b, mb, n));
      assert a == a[..n - 1] + [a[n - 1]] && b[..n] == b[..n - 1] + [b[n - 1]];
    }
  }

  lemma NoRoundsStart(t: Tunnel, m0: Metadata, m: Metadata)
    requires TunnelOk(t) && RoundsOk(t, m0, [], m)
    ensures m == m0
  {
  }

  /** Rounds that go on with a new Rematch name do not give a result where they go on. */
  lemma NoResultWhereItGoesOn(t: Tunnel, m0: Metadata, b: seq<Round>, mb: Metadata, n: nat, r: MatchResult)
    requires TunnelOk(t) && RoundsOk(t, m0, b, mb) && Distinct(RoundNames(b)) && n < |b|
    ensures !LastRoundGives(t, b[n].start, RoundNames(b[..n]), r)
  {
    hide TunnelOk; hide ScanGives;
    if LastRoundGives(t, b[n].start, RoundNames(b[..n]), r) {
      var rules, names := GetRules(t, b[n].start), RoundNames(b[..n]);
      assert RoundNames(b)[n] == b[n].via.name && forall i :: 0 <= i < n ==> RoundNames(b)[i] == names[i];
      RoundsBefore(t, m0, b, mb, n + 1);
      assert b[..n + 1][..n] == b[..n] && b[..n + 1][n] == b[n];
      var k: nat, m1 :| ScanGives(t, rules, b[n].start, Some((k, Restart(b[n].via))), m1);
      var f, m2 := ScanOrRepeat(t, b[n].start, names, r);
      ScanGivesOnce(t, rules, b[n].start, f, m2, Some((k, Restart(b[n].via))), m1);
    }
  }

  lemma ScanOrRepeat(t: Tunnel, m: Metadata, names: seq<string>, r: MatchResult)
    returns (f: Option<(nat, Decision)>, m1: Metadata)
    requires TunnelOk(t) && LastRoundGives(t, m, names, r)
    ensures ScanGives(t, GetRules(t, m), m, f, m1)
    ensures f.Some? && f.value.1.Restart? ==> f.value.1.via.name in names
  {
    hide ScanGives; hide TunnelOk;
    f, m1 :| ScanGives(t, GetRules(t, m), m, f, m1) && (f.Some? && f.value.1.Restart? ==> f.value.1.via.name in names);
  }

  /** A match has one result: however the rounds are told, they end the same way. */
  lemma MatchGivesOnce(t: Tunnel, m0: Metadata, r: MatchResult, s: MatchResult)
    requires TunnelOk(t) && MatchGives(t, m0, r) && MatchGives(t, m0, s)
    ensures r == s
  {
    hide TunnelOk; hide RoundsOk; hide LastRoundGives;
    var a, ma :| GivesAfter(t, m0, a, ma, r);
    var b, mb :| GivesAfter(t, m0, b, mb, s);
    if |a| <= |b| {
      SameRoundsSameResult(t, m0, a, ma, r, b, mb, s);
    } else {
      SameRoundsSameResult(t, m0, b, mb, s, a, ma, r);
    }
  }

  lemma SameRoundsSameResult(t: Tunnel, m0: Metadata, a: seq<Round>, ma: Metadata, r: MatchResult, b: seq<Round>,
                             mb: Metadata, s: MatchResult)
    requires TunnelOk(t) && |a| <= |b| && GivesAfter(t, m0, a, ma, r) && GivesAfter(t, m0, b, mb, s)
    ensures r == s
  {
    hide TunnelOk; hide RoundsOk; hide LastRoundGives;
    RoundsAgree(t, m0, a, ma, b, mb);
    if |a| < |b| {
      NoResultWhereItGoesOn(t, m0, b, mb, |a|, r);
    } else {
      assert a == b;
      LastRoundGivesOnce(t, ma, RoundNames(a), r, s);
    }
  }
}
