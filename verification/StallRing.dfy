/** The ring of six five-minute buckets that stands for the log of all merges. */
module StallRing {
  import opened Stalls

  const BUCKETS := 6

  datatype Bucket = Bucket(slot: int, sum: Delta)

  /** A merge that was asked for, with the five-minute slot of its time. */
  datatype Entry = Entry(slot: nat, delta: Delta)

  /** All buckets start in slot 0 with nothing in them. */
  const UNUSED := Bucket(0, NOTHING)
  const EMPTY_RING := [UNUSED, UNUSED, UNUSED, UNUSED, UNUSED, UNUSED]

  type Ring = r: seq<Bucket> | |r| == BUCKETS witness EMPTY_RING

  /** A bucket of an older slot is taken over; a merge older than its bucket is refused. */
  function Add(w: Ring, e: Entry): Ring {
    var i := e.slot % BUCKETS;
    if w[i].slot > e.slot then w
    else w[i := Bucket(e.slot, Plus(if w[i].slot == e.slot then w[i].sum else NOTHING, e.delta))]
  }

  predicate Recent(slot: int, now: int) {
    slot <= now && now - slot < BUCKETS
  }

  /** The sums of the first `n` buckets that are recent at slot `now`. */
  function Visible(w: Ring, now: int, n: nat): Delta
    requires n <= BUCKETS
  {
    if n == 0 then NOTHING
    else
      var rest := Visible(w, now, n - 1);
      if Recent(w[n - 1].slot, now) then Plus(rest, w[n - 1].sum) else rest
  }

  function Replay(log: seq<Entry>): Ring {
    if log == [] then EMPTY_RING else Add(Replay(log[..|log| - 1]), log[|log| - 1])
  }

  // ---- The log the ring stands for ----

  /** The sum of all merges of the log that are recent at slot `now`. */
  function RecentSum(log: seq<Entry>, now: int): Delta {
    if log == [] then NOTHING
    else
      var rest, e := RecentSum(log[..|log| - 1], now), log[|log| - 1];
      if Recent(e.slot, now) then Plus(rest, e.delta) else rest
  }

  /** The sum of the merges of one slot that belong in bucket `i`. */
  function SlotSum(log: seq<Entry>, i: nat, slot: int): Delta {
    if log == [] then NOTHING
    else
      var rest, e := SlotSum(log[..|log| - 1], i, slot), log[|log| - 1];
      if e.slot == slot && e.slot % BUCKETS == i then Plus(rest, e.delta) else rest
  }

  /** Some merge is of the slot. */
  predicate Names(log: seq<Entry>, slot: int) {
    exists k :: 0 <= k < |log| && log[k].slot == slot
  }

  /** Every bucket holds its slot's merges, and is not behind any merge that belongs in it. */
  predicate Holds(w: Ring, log: seq<Entry>) {
    && (forall i :: 0 <= i < BUCKETS ==> w[i].sum == SlotSum(log, i, w[i].slot))
    && (forall i :: 0 <= i < BUCKETS ==> w[i].slot == 0 || (w[i].slot % BUCKETS == i && Names(log, w[i].slot)))
    && (forall k :: 0 <= k < |log| ==> log[k].slot <= w[log[k].slot % BUCKETS].slot)
  }

  /** Nothing of a slot that no merge names. */
  lemma {:induction false} SlotSumOfNone(log: seq<Entry>, i: nat, slot: int)
    requires forall k :: 0 <= k < |log| && log[k].slot % BUCKETS == i ==> log[k].slot != slot
    ensures SlotSum(log, i, slot) == NOTHING
  {
    if log != [] {
      var init, e := log[..|log| - 1], log[|log| - 1];
      assert forall k :: 0 <= k < |init| ==> init[k] == log[k];
      SlotSumOfNone(init, i, slot);
    }
  }

  lemma AddHolds(w: Ring, log: seq<Entry>, e: Entry)
    requires Holds(w, log)
    ensures Holds(Add(w, e), log + [e])
  {
    hide Plus;
    var more, j, w' := log + [e], e.slot % BUCKETS, Add(w, e);
    assert more[..|more| - 1] == log && more[|more| - 1] == e;
    if w[j].slot < e.slot {
      SlotSumOfNone(log, j, e.slot);
    }
    forall i | 0 <= i < BUCKETS
      ensures w'[i].sum == SlotSum(more, i, w'[i].slot)
      ensures w'[i].slot == 0 || (w'[i].slot % BUCKETS == i && Names(more, w'[i].slot))
    {
      if i == j && w[j].slot <= e.slot {
        assert more[|log|].slot == w'[i].slot;
      } else if w[i].slot != 0 {
        var k :| 0 <= k < |log| && log[k].slot == w[i].slot;
        assert more[k].slot == w'[i].slot;
      }
    }
    forall k | 0 <= k < |more|
      ensures more[k].slot <= w'[more[k].slot % BUCKETS].slot
    {
      assert k < |log| ==> more[k] == log[k];
    }
  }

  lemma {:induction false} ReplayHolds(log: seq<Entry>)
    ensures Holds(Replay(log), log)
  {
    if log != [] {
      hide Holds;
      var init := log[..|log| - 1];
      ReplayHolds(init);
      AddHolds(Replay(init), init, log[|log| - 1]);
      assert init + [log[|log| - 1]] == log;
    }
  }

  // ---- Reading ----

  /** What the first `n` recent buckets would show if each held exactly its slot's merges of `log`. */
  function Shown(w: Ring, log: seq<Entry>, now: int, n: nat): Delta
    requires n <= BUCKETS
  {
    if n == 0 then NOTHING
    else
      var rest := Shown(w, log, now, n - 1);
      if Recent(w[n - 1].slot, now) then Plus(rest, SlotSum(log, n - 1, w[n - 1].slot)) else rest
  }

  lemma {:induction false} VisibleIsShown(w: Ring, log: seq<Entry>, now: int, n: nat)
    requires n <= BUCKETS && forall i :: 0 <= i < BUCKETS ==> w[i].sum == SlotSum(log, i, w[i].slot)
    ensures Visible(w, now, n) == Shown(w, log, now, n)
  {
    if n > 0 {
      VisibleIsShown(w, log, now, n - 1);
    }
  }

  /** A merge is shown by the one bucket it belongs in, if that bucket is recent and still its. */
  lemma {:induction false} ShownGrows(w: Ring, log: seq<Entry>, e: Entry, now: int, n: nat)
    requires n <= BUCKETS
    ensures var j := e.slot % BUCKETS;
      Shown(w, log + [e], now, n)
      == if j < n && w[j].slot == e.slot && Recent(e.slot, now)
         then Plus(Shown(w, log, now, n), e.delta) else Shown(w, log, now, n)
  {
    var more := log + [e];
    assert more[..|more| - 1] == log && more[|more| - 1] == e;
    if n > 0 {
      ShownGrows(w, log, e, now, n - 1);
    }
  }

  lemma {:induction false} ShownIsRecent(w: Ring, log: seq<Entry>, now: int)
    requires forall k :: 0 <= k < |log| && Recent(log[k].slot, now) ==> w[log[k].slot % BUCKETS].slot == log[k].slot
    ensures Shown(w, log, now, BUCKETS) == RecentSum(log, now)
  {
    if log == [] {
      NothingShown(w, now, BUCKETS);
    } else {
      var init, e := log[..|log| - 1], log[|log| - 1];
      assert forall k :: 0 <= k < |init| ==> init[k] == log[k];
      ShownIsRecent(w, init, now);
      ShownGrows(w, init, e, now, BUCKETS);
      assert init + [e] == log;
    }
  }

  lemma {:induction false} NothingShown(w: Ring, now: int, n: nat)
    requires n <= BUCKETS
    ensures Shown(w, [], now, n) == NOTHING
  {
    if n > 0 {
      NothingShown(w, now, n - 1);
    }
  }

  /**
   The ring loses nothing that can be seen: whatever the order of the merges, at a slot that none
   of them is after, the recent buckets add up to all merges of the last six slots.
   */
  lemma RingRefinesLog(log: seq<Entry>, now: int)
    requires forall k :: 0 <= k < |log| ==> log[k].slot <= now
    ensures Visible(Replay(log), now, BUCKETS) == RecentSum(log, now)
  {
    hide Plus, Replay;
    var w := Replay(log);
    ReplayHolds(log);
    VisibleIsShown(w, log, now, BUCKETS);
    forall k | 0 <= k < |log| && Recent(log[k].slot, now)
      ensures w[log[k].slot % BUCKETS].slot == log[k].slot
    {
      SameBucketSameSlot(log[k].slot, w[log[k].slot % BUCKETS].slot, now);
    }
    ShownIsRecent(w, log, now);
  }

  lemma SameBucketSameSlot(a: nat, b: nat, now: int)
    requires a <= b <= now && Recent(a, now)
    requires b == 0 || b % BUCKETS == a % BUCKETS
    ensures a == b
  {
  }
}
