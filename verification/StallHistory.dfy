/** The ring of buckets in place, and the evidence read from it. */
module StallHistory {
  import opened Options
  import opened Stalls
  import opened StallRing

  /** Seconds and rates are reals. */
  datatype Evidence = Evidence(activeSeconds: real, events: int, excessSeconds: real, perMinute: real, penalty: real)

  function Seconds(d: int): real {
    d as real / SECOND as real
  }

  function Lesser(a: real, b: real): real {
    if a < b then a else b
  }

  function Penalty(active: real, excess: real, perMinute: real): real
    requires active > 0.0
  {
    if active < 20.0 then 0.0
    else Lesser(80.0, 3.0 * perMinute + 200.0 * excess / active) * active / (active + 60.0)
  }

  /** No evidence without active time. */
  function Judge(total: Delta): Option<Evidence> {
    if total.active <= 0 then None
    else
      var active, excess := Seconds(total.active), Seconds(total.excess);
      assert active > 0.0;
      var perMinute := total.events as real / (active / 60.0);
      Some(Evidence(active, total.events, excess, perMinute, Penalty(active, excess, perMinute)))
  }

  lemma WeightedBelow(score: real, active: real)
    requires 0.0 <= score <= 80.0 && active > 0.0
    ensures 0.0 <= score * active / (active + 60.0) < 80.0
  {
    assert score * active <= 80.0 * active < 80.0 * (active + 60.0);
    assert 0.0 <= score * active;
  }

  lemma NonNegativeQuotient(a: real, b: real)
    requires a >= 0.0 && b > 0.0
    ensures a / b >= 0.0
  {
  }

  lemma PenaltyBelow(active: real, excess: real, perMinute: real)
    requires active > 0.0 && excess >= 0.0 && perMinute >= 0.0
    ensures 0.0 <= Penalty(active, excess, perMinute) < 80.0
  {
    NonNegativeQuotient(200.0 * excess, active);
    var score := Lesser(80.0, 3.0 * perMinute + 200.0 * excess / active);
    WeightedBelow(score, active);
    assert Penalty(active, excess, perMinute) == if active < 20.0 then 0.0 else score * active / (active + 60.0);
  }

  /** A penalty is below 80, never negative, and zero until 20 seconds of active time were seen. */
  lemma PenaltyIsBounded(total: Delta)
    requires PendingOk(total) && total.active > 0
    ensures var e := Judge(total).value;
      0.0 <= e.penalty < 80.0 && (total.active < 20 * SECOND ==> e.penalty == 0.0)
  {
    var e := Judge(total).value;
    assert e.activeSeconds == Seconds(total.active) && e.excessSeconds == Seconds(total.excess);
    NonNegativeQuotient(total.events as real, e.activeSeconds / 60.0);
    PenaltyBelow(e.activeSeconds, e.excessSeconds, e.perMinute);
  }

  method NewHistory() returns (w: array<Bucket>)
    ensures fresh(w) && w[..] == EMPTY_RING
  {
    w := new Bucket[BUCKETS](_ => UNUSED);
    assert w[..] == EMPTY_RING;
  }

  method AddDelta(w: array<Bucket>, d: Delta, slot: nat)
    requires w.Length == BUCKETS
    modifies w
    ensures w[..] == Add(old(w[..]), Entry(slot, d))
  {
    var i := slot % BUCKETS;
    if w[i].slot != slot {
      if w[i].slot > slot {
        return;
      }
      w[i] := Bucket(slot, NOTHING);
    }
    w[i] := w[i].(sum := Plus(w[i].sum, d));
  }

  method ReadEvidence(w: array<Bucket>, slot: int) returns (e: Option<Evidence>)
    requires w.Length == BUCKETS
    ensures e == Judge(Visible(w[..], slot, BUCKETS))
  {
    var total := NOTHING;
    for k := 0 to BUCKETS
      invariant total == Visible(w[..], slot, k)
    {
      if w[k].slot <= slot && slot - w[k].slot < BUCKETS {
        total := Plus(total, w[k].sum);
      }
    }
    return Judge(total);
  }

  // ---- What the evidence says ----

  /** Merges that a meter can have handed over. */
  predicate EntriesOk(log: seq<Entry>) {
    forall k :: 0 <= k < |log| ==> PendingOk(log[k].delta)
  }

  lemma {:induction false} RecentSumOk(log: seq<Entry>, now: int)
    requires EntriesOk(log)
    ensures PendingOk(RecentSum(log, now))
  {
    if log != [] {
      var init := log[..|log| - 1];
      assert forall k :: 0 <= k < |init| ==> init[k] == log[k];
      RecentSumOk(init, now);
      PendingAdds(RecentSum(init, now), log[|log| - 1].delta);
    }
  }

  predicate NoneAfter(log: seq<Entry>, now: int) {
    forall k :: 0 <= k < |log| ==> log[k].slot <= now
  }

  /** The evidence is that of the merges of the last six slots: none for nothing, otherwise with a penalty in range. */
  predicate JudgedFromRecent(log: seq<Entry>, now: int) {
    var sum, e := RecentSum(log, now), Judge(Visible(Replay(log), now, BUCKETS));
    && e == Judge(sum) && PendingOk(sum) && (e.None? <==> sum == NOTHING)
    && (e.Some? ==> 0.0 <= e.value.penalty < 80.0)
  }

  /** At a slot that no merge is after the evidence is judged from exactly the merges of the last six slots. */
  lemma EvidenceIsOfRecentMerges(log: seq<Entry>, now: int)
    requires EntriesOk(log) && NoneAfter(log, now)
    ensures JudgedFromRecent(log, now)
  {
    RingRefinesLog(log, now);
    RecentSumOk(log, now);
    var sum := RecentSum(log, now);
    hide RecentSum, Visible, Replay, Penalty;
    if sum.active > 0 {
      PenaltyIsBounded(sum);
    }
  }

  // ---- Histories by key ----

  /** The keys that stalls are kept under: the exact endpoint, and the service in its region if there is one. */
  predicate Keeps(i: nat) {
    i == 0 || i == 2
  }

  /** The logs after an entry went to the first `n` keys. */
  function Logged(logs: map<string, seq<Entry>>, keys: seq<string>, e: Entry, n: nat): map<string, seq<Entry>>
    requires n <= |keys|
  {
    if n == 0 then logs
    else
      var before, key := Logged(logs, keys, e, n - 1), keys[n - 1];
      if Keeps(n - 1) then before[key := (if key in before then before[key] else []) + [e]] else before
  }

  class AntiHistory {
    var rings: map<string, array<Bucket>>
    ghost var logs: map<string, seq<Entry>>

    ghost function Arrays(): set<object>
      reads this
    {
      set key | key in rings :: rings[key]
    }

    /** Every ring is its own array and holds its key's log. */
    ghost predicate Valid()
      reads this, Arrays()
    {
      && rings.Keys == logs.Keys
      && (forall key :: key in rings ==> rings[key].Length == BUCKETS && rings[key][..] == Replay(logs[key]))
      && (forall j, k :: j in rings && k in rings && j != k ==> rings[j] != rings[k])
    }

    /** Every merge asked for was one that a meter can hand over. */
    ghost predicate AllOk()
      reads this
    {
      forall key :: key in logs ==> EntriesOk(logs[key])
    }

    constructor ()
      ensures Valid() && logs == map[] && Arrays() == {} && AllOk()
    {
      rings, logs := map[], map[];
    }

    method EnsureRing(key: string)
      requires Valid()
      modifies this
      ensures Valid() && key in rings && fresh(Arrays() - old(Arrays()))
      ensures logs == if key in old(logs) then old(logs) else old(logs)[key := []]
    {
      hide Replay;
      if key !in rings {
        var w := NewHistory();
        ReplayNothing();
        rings, logs := rings[key := w], logs[key := []];
      }
    }

    method AddKnown(key: string, d: Delta, slot: nat)
      requires Valid() && key in rings
      modifies `logs, rings[key]
      ensures Valid()
      ensures logs == old(logs)[key := old(logs)[key] + [Entry(slot, d)]]
    {
      hide Replay, Add;
      AddDelta(rings[key], d, slot);
      ReplayOneMore(logs[key], Entry(slot, d));
      logs := logs[key := logs[key] + [Entry(slot, d)]];
    }

    /** Adds to the ring of one key, which may be new. */
    method AddOne(key: string, d: Delta, slot: nat)
      requires Valid()
      modifies this, Arrays()
      ensures Valid() && fresh(Arrays() - old(Arrays()))
      ensures logs == old(logs)[key := (if key in old(logs) then old(logs)[key] else []) + [Entry(slot, d)]]
    {
      hide Replay;
      EnsureRing(key);
      AddKnown(key, d, slot);
    }

    method AddStalls(keys: seq<string>, d: Delta, slot: nat)
      requires Valid()
      modifies this, Arrays()
      ensures Valid() && fresh(Arrays() - old(Arrays()))
      ensures logs == Logged(old(logs), keys, Entry(slot, d), |keys|)
    {
      hide Replay;
      for i := 0 to |keys|
        invariant Valid() && fresh(Arrays() - old(Arrays()))
        invariant logs == Logged(old(logs), keys, Entry(slot, d), i)
      {
        if i == 0 || i == 2 {
          AddOne(keys[i], d, slot);
        }
      }
    }

    /**
     The evidence of one key: none for an unknown one, and otherwise judged from the merges of its
     last six slots if none is later than `now`.
     */
    method EvidenceOf(key: string, now: int) returns (e: Option<Evidence>)
      requires Valid() && AllOk()
      ensures e == if key in logs then Judge(Visible(Replay(logs[key]), now, BUCKETS)) else None
      ensures key in logs && NoneAfter(logs[key], now) ==>
        e == Judge(RecentSum(logs[key], now)) && (e.Some? ==> 0.0 <= e.value.penalty < 80.0)
    {
      hide Judge, Replay, RecentSum, Visible;
      if key !in rings {
        return None;
      }
      e := ReadEvidence(rings[key], now);
      if NoneAfter(logs[key], now) {
        EvidenceIsOfRecentMerges(logs[key], now);
      }
    }
  }

  /** An entry that a meter can hand over keeps all logs so. */
  lemma {:induction false} LoggedKeepsOk(logs: map<string, seq<Entry>>, keys: seq<string>, e: Entry, n: nat)
    requires n <= |keys| && PendingOk(e.delta) && forall key :: key in logs ==> EntriesOk(logs[key])
    ensures forall key :: key in Logged(logs, keys, e, n) ==> EntriesOk(Logged(logs, keys, e, n)[key])
  {
    if n > 0 {
      LoggedKeepsOk(logs, keys, e, n - 1);
    }
  }

  lemma ReplayNothing()
    ensures Replay([]) == EMPTY_RING
  {
  }

  lemma ReplayOneMore(log: seq<Entry>, e: Entry)
    ensures Replay(log + [e]) == Add(Replay(log), e)
  {
    assert (log + [e])[..|log|] == log;
  }
}
