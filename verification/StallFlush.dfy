/** Pending charges are merged into the history at coarse intervals; merging loses nothing. */
module StallFlush {
  import opened Options
  import opened Stalls

  /** A merge into the history, dated by the last event of the meter. */
  datatype Merge = Merge(delta: Delta, at: Option<Time>)

  datatype Path = Path(meter: Meter, merged: seq<Merge>)

  const NEW_PATH := Path(NEW_METER, [])

  /** Active time after which pending charges are merged. */
  const COARSE := 5_000_000_000

  function Flush(p: Path, force: bool): Path {
    var pending := p.meter.pending;
    if pending.active <= 0 || (!force && pending.active < COARSE) then p
    else Path(p.meter.(pending := NOTHING), p.merged + [Merge(pending, p.meter.event)])
  }

  function ObserveStalls(p: Path, at: Time, receive: bool): Path {
    var idle := p.meter.pending.active > 0 && Since(at, p.meter.event) > SECOND;
    var settled := if idle then Flush(p, true) else p;
    Flush(settled.(meter := Observe(settled.meter, at, receive)), false)
  }

  function Merged(merged: seq<Merge>): Delta {
    if merged == [] then NOTHING else Plus(Merged(merged[..|merged| - 1]), merged[|merged| - 1].delta)
  }

  /** Everything charged so far, merged or not. */
  function Total(p: Path): Delta {
    Plus(Merged(p.merged), p.meter.pending)
  }

  /** A merge is of active time, accounted for and dated. */
  predicate MergeOk(m: Merge) {
    m.delta.active > 0 && PendingOk(m.delta) && m.at.Some?
  }

  /** As soon as there are charges there is an event to date them by. */
  predicate Dated(m: Meter) {
    m.pending.active > 0 ==> m.event.Some?
  }

  predicate Ok(p: Path) {
    && Valid(p.meter) && Dated(p.meter) && p.meter.pending.active < COARSE
    && forall k :: 0 <= k < |p.merged| ==> MergeOk(p.merged[k])
  }

  lemma FlushKeepsTotal(p: Path, force: bool)
    requires Valid(p.meter)
    ensures Total(Flush(p, force)) == Total(p) && Valid(Flush(p, force).meter)
    ensures Flush(p, force).meter == p.meter.(pending := Flush(p, force).meter.pending)
  {
    hide EpisodeOk, LearnedOk;
    var m := p.merged + [Merge(p.meter.pending, p.meter.event)];
    assert m[..|m| - 1] == p.merged;
    assert p.meter.(pending := NOTHING).pending == NOTHING;
    SameState(p.meter, NOTHING);
  }

  lemma SameState(m: Meter, d: Delta)
    ensures LearnedOk(m) ==> LearnedOk(m.(pending := d))
    ensures TimesOk(m) ==> TimesOk(m.(pending := d)) && (EpisodeOk(m) ==> EpisodeOk(m.(pending := d)))
  {
  }

  /** A forced flush leaves nothing behind, although it looks at the active time only. */
  lemma ForcedFlushEmpties(p: Path)
    requires Valid(p.meter)
    ensures Flush(p, true).meter.pending == NOTHING
  {
    hide EpisodeOk, LearnedOk;
  }

  /** What a meter charges does not depend on what is pending. */
  lemma ChargesIgnorePending(m: Meter, d: Delta, at: Time, receive: bool)
    ensures Observe(m.(pending := d), at, receive)
         == Observe(m, at, receive).(pending := Plus(d, Charge(m, Clamped(m, at))))
    ensures Observe(m, at, receive).pending == Plus(m.pending, Charge(m, Clamped(m, at)))
  {
    hide Quotient;
    var m' := m.(pending := d);
    assert Charge(m', Clamped(m', at)) == Charge(m, Clamped(m, at));
    assert Since(Clamped(m, at), m'.rx) == Since(Clamped(m, at), m.rx);
    hide Charge;
  }

  function AfterFlushing(packets: seq<Packet>): Path
    decreases |packets|
  {
    if packets == [] then NEW_PATH
    else
      var last := packets[|packets| - 1];
      ObserveStalls(AfterFlushing(packets[..|packets| - 1]), last.at, last.receive)
  }

  lemma FlushBounds(p: Path, force: bool)
    requires Valid(p.meter) && Dated(p.meter) && forall k :: 0 <= k < |p.merged| ==> MergeOk(p.merged[k])
    ensures Flush(p, force).meter.pending.active < COARSE && Dated(Flush(p, force).meter)
    ensures forall k :: 0 <= k < |Flush(p, force).merged| ==> MergeOk(Flush(p, force).merged[k])
  {
    hide EpisodeOk, LearnedOk;
  }

  lemma ObserveKeepsDated(m: Meter, at: Time, receive: bool)
    requires Dated(m)
    ensures Dated(Observe(m, at, receive))
  {
    hide Charge, Continuous, Stalled, Quotient, Plus;
  }

  lemma PlusAssociates(a: Delta, b: Delta, c: Delta)
    ensures Plus(a, Plus(b, c)) == Plus(Plus(a, b), c)
  {
  }

  lemma ObserveStallsKeepsTotal(p: Path, m: Meter, at: Time, receive: bool)
    requires Ok(p) && Valid(m) && p.meter == m.(pending := p.meter.pending) && Total(p) == m.pending
    ensures var p', m' := ObserveStalls(p, at, receive), Observe(m, at, receive);
      Ok(p') && Valid(m') && p'.meter == m'.(pending := p'.meter.pending) && Total(p') == m'.pending
  {
    hide Valid, Flush, Observe, Charge, Plus, Merged, Dated, MergeOk;
    var settled := if p.meter.pending.active > 0 && Since(at, p.meter.event) > SECOND then Flush(p, true) else p;
    FlushKeepsTotal(p, true);
    FlushBounds(p, true);
    var observed := settled.(meter := Observe(settled.meter, at, receive));
    ChargesIgnorePending(m, settled.meter.pending, at, receive);
    PlusAssociates(Merged(settled.merged), settled.meter.pending, Charge(m, Clamped(m, at)));
    ObserveKeepsValid(settled.meter, at, receive);
    ObserveKeepsDated(settled.meter, at, receive);
    ObserveKeepsValid(m, at, receive);
    FlushKeepsTotal(observed, false);
    FlushBounds(observed, false);
  }

  /**
   Over every run, what has been merged and what is pending add up to what a meter that is never
   flushed would have charged, which is what the receive gaps are worth.
   */
  lemma {:induction false} FlushingLosesNothing(packets: seq<Packet>)
    ensures var p, m := AfterFlushing(packets), After(NEW_METER, packets);
      && Ok(p)
      && Valid(m)
      && p.meter == m.(pending := p.meter.pending)
      && Total(p) == m.pending == TotalWorth(Gaps(packets))
    decreases |packets|
  {
    ChargesAreGapByGap(packets);
    if packets != [] {
      hide ObserveStalls, Observe, Valid, Plus, TotalWorth, Gaps;
      var init := packets[..|packets| - 1];
      FlushingLosesNothing(init);
      var last := packets[|packets| - 1];
      ObserveStallsKeepsTotal(AfterFlushing(init), After(NEW_METER, init), last.at, last.receive);
    }
  }

  /** Nothing is dated before time 0. */
  predicate NotNegative(p: Path) {
    && (p.meter.event.Some? ==> p.meter.event.value >= 0)
    && forall k :: 0 <= k < |p.merged| && p.merged[k].at.Some? ==> p.merged[k].at.value >= 0
  }

  lemma ObserveStallsKeepsNotNegative(p: Path, at: Time, receive: bool)
    requires NotNegative(p) && at >= 0
    ensures NotNegative(ObserveStalls(p, at, receive))
  {
    hide Charge, Continuous, Stalled, Quotient, Plus;
  }

  lemma {:induction false} MergesAreNotNegative(packets: seq<Packet>)
    requires forall k :: 0 <= k < |packets| ==> packets[k].at >= 0
    ensures NotNegative(AfterFlushing(packets))
    decreases |packets|
  {
    hide ObserveStalls;
    if packets != [] {
      var init, last := packets[..|packets| - 1], packets[|packets| - 1];
      MergesAreNotNegative(init);
      ObserveStallsKeepsNotNegative(AfterFlushing(init), last.at, last.receive);
    }
  }
}
