/** The stall meter of one path: what an observation charges, and what the charges add up to. */
module Stalls {
  import opened Options

  /** Times and durations are in nanoseconds; a zero time is an absent one. */
  type Time = int

  const SECOND := 1_000_000_000

  /** The least gap that can be a stall: 150 milliseconds. */
  const LEAST_STALL := 150_000_000

  /** The longest gap a meter learns from: 250 milliseconds. */
  const LONGEST_GAP := 250_000_000

  /** The longest duration: what a subtraction of the zero time saturates to. */
  const FOREVER := 0x7fff_ffff_ffff_ffff

  datatype Delta = Delta(active: int, excess: int, events: int)

  const NOTHING := Delta(0, 0, 0)

  function Plus(a: Delta, b: Delta): Delta {
    Delta(a.active + b.active, a.excess + b.excess, a.events + b.events)
  }

  datatype Meter = Meter(event: Option<Time>, rx: Option<Time>, tx: Option<Time>,
                         typical: int, intervals: int, inEpisode: bool, pending: Delta)

  const NEW_METER := Meter(None, None, None, 0, 0, false, NOTHING)

  function Since(now: Time, t: Option<Time>): int {
    if t.Some? then now - t.value else FOREVER
  }

  function Max(a: int, b: int): int {
    if a < b then b else a
  }

  /** A clock that steps back is read as standing still. */
  function Clamped(m: Meter, now: Time): Time {
    if m.event.Some? then Max(now, m.event.value) else now
  }

  function Threshold(m: Meter): int {
    Max(4 * m.typical, LEAST_STALL)
  }

  predicate Continuous(m: Meter, now: Time) {
    m.tx.Some? && now - m.tx.value <= (if m.intervals < 8 then SECOND else Threshold(m))
  }

  predicate Armed(m: Meter) {
    m.intervals >= 8 && m.rx.Some?
  }

  predicate Stalled(m: Meter, now: Time) {
    Since(now, m.rx) > Threshold(m) && m.tx.Some? && m.rx.Some? && m.tx.value > m.rx.value
  }

  /** What one observation adds to the pending sums. */
  function Charge(m: Meter, now: Time): Delta {
    if !Continuous(m, now) || !Armed(m) then NOTHING
    else if !Stalled(m, now) then Delta(Since(now, m.event), 0, 0)
    else
      var start := m.rx.value + Threshold(m);
      Delta(Since(now, m.event),
            now - (if m.event.Some? then Max(start, m.event.value) else start),
            if m.inEpisode then 0 else 1)
  }

  /** Division that rounds toward zero. */
  function Quotient(a: int, b: int): int
    requires b > 0
  {
    if a >= 0 then a / b else -((-a) / b)
  }

  /** What a receive teaches about the usual gap; `gap` is the one before a lapse cleared the meter. */
  function Learn(m: Meter, gap: int): Meter {
    var known := if m.intervals < 8 && gap > LONGEST_GAP then m.(intervals := 0, typical := 0) else m;
    if known.rx.Some? && 0 < gap <= LONGEST_GAP && !known.inEpisode then
      known.(typical := if known.intervals == 0 then gap else known.typical + Quotient(gap - known.typical, 8),
             intervals := if known.intervals < 8 then known.intervals + 1 else known.intervals)
    else known
  }

  function Lapsed(m: Meter): Meter {
    m.(rx := None, typical := 0, intervals := 0, inEpisode := false)
  }

  /** The meter after the first half of an observation, before it is told what the packet was. */
  function Counted(m: Meter, now: Time): Meter {
    var counted := m.(pending := Plus(m.pending, Charge(m, now)));
    if !Continuous(m, now) then Lapsed(counted)
    else counted.(inEpisode := m.inEpisode || (Armed(m) && Stalled(m, now)))
  }

  function Observe(m: Meter, at: Time, receive: bool): Meter {
    var now := Clamped(m, at);
    var kept := Counted(m, now);
    if receive then Learn(kept, Since(now, m.rx)).(rx := Some(now), inEpisode := false, event := Some(now))
    else kept.(tx := Some(now), event := Some(now))
  }

  // ---- What every observation keeps ----

  /** How far a gap that began at `rx` has outgrown the threshold at `t`. */
  function Overrun(m: Meter, t: Time): int
    requires m.rx.Some?
  {
    Max(0, t - m.rx.value - Threshold(m))
  }

  predicate LearnedOk(m: Meter) {
    && 0 <= m.typical <= LONGEST_GAP && 0 <= m.intervals <= 8
    && (m.intervals > 0 ==> m.rx.Some? && m.typical > 0)
  }

  predicate TimesOk(m: Meter) {
    && (m.rx.Some? ==> m.event.Some? && m.rx.value <= m.event.value)
    && (m.tx.Some? ==> m.event.Some? && m.tx.value <= m.event.value)
  }

  predicate EpisodeOk(m: Meter)
    requires TimesOk(m)
  {
    m.inEpisode <==> Armed(m) && Overrun(m, m.event.value) > 0
  }

  predicate PendingOk(d: Delta) {
    0 <= d.excess <= d.active && 0 <= d.events && (d.active == 0 ==> d.events == 0)
  }

  predicate Valid(m: Meter) {
    LearnedOk(m) && TimesOk(m) && EpisodeOk(m) && PendingOk(m.pending)
  }

  /** The learned gap moves an eighth of the way and never past its goal. */
  lemma EighthStaysBetween(typical: int, gap: int)
    requires 0 < typical <= LONGEST_GAP && 0 < gap <= LONGEST_GAP
    ensures 0 < typical + Quotient(gap - typical, 8) <= LONGEST_GAP
  {
  }

  /** The test that something was sent since the last receive is implied once a gap is too long. */
  lemma SendIsImplied(m: Meter, now: Time)
    requires Armed(m) && Continuous(m, now) && Since(now, m.rx) > Threshold(m)
    ensures Stalled(m, now)
  {
  }

  lemma StalledIsOverrun(m: Meter, now: Time)
    requires Armed(m) && Continuous(m, now)
    ensures Stalled(m, now) <==> Overrun(m, now) > 0
  {
    if Since(now, m.rx) > Threshold(m) {
      SendIsImplied(m, now);
    }
  }

  /** What a gap that grows from `from` to `to` deserves: the growth of its overrun, and one event when that begins. */
  function Growth(m: Meter, from: Time, to: Time): Delta
    requires m.rx.Some?
  {
    Delta(to - from, Overrun(m, to) - Overrun(m, from), if Overrun(m, from) == 0 && Overrun(m, to) > 0 then 1 else 0)
  }

  lemma GrowthAdds(m: Meter, a: Time, b: Time, c: Time)
    requires m.rx.Some? && a <= b <= c
    ensures Plus(Growth(m, a, b), Growth(m, b, c)) == Growth(m, a, c)
  {
    hide Threshold;
  }

  /** A continuous observation of an armed meter charges exactly the growth of the gap. */
  lemma ChargeIsGrowth(m: Meter, at: Time)
    requires Valid(m) && Armed(m) && Continuous(m, Clamped(m, at))
    ensures Charge(m, Clamped(m, at)) == Growth(m, m.event.value, Clamped(m, at))
  {
    hide Threshold, Stalled, Continuous;
    StalledIsOverrun(m, Clamped(m, at));
  }

  lemma ChargeIsBounded(m: Meter, at: Time)
    requires Valid(m)
    ensures PendingOk(Charge(m, Clamped(m, at))) && Charge(m, Clamped(m, at)).events <= 1
  {
    if Armed(m) && Continuous(m, Clamped(m, at)) {
      ChargeIsGrowth(m, at);
    }
  }

  lemma LearnKeepsRanges(m: Meter, gap: int)
    requires LearnedOk(m)
    ensures LearnedOk(Learn(m, gap).(rx := Some(0)))
  {
    hide Quotient;
    if 0 < m.intervals && 0 < gap <= LONGEST_GAP {
      EighthStaysBetween(m.typical, gap);
    }
  }

  lemma PendingAdds(a: Delta, b: Delta)
    requires PendingOk(a) && PendingOk(b)
    ensures PendingOk(Plus(a, b))
  {
  }

  lemma CountedKeepsEpisode(m: Meter, now: Time)
    requires Valid(m) && now == Clamped(m, now)
    ensures var k := Counted(m, now);
      LearnedOk(k) && TimesOk(k) && EpisodeOk(k.(event := Some(now))) && PendingOk(k.pending)
  {
    ChargeIsBounded(m, now);
    PendingAdds(m.pending, Charge(m, now));
    hide Charge, Plus, PendingOk, Continuous, Stalled;
    if Armed(m) && Continuous(m, now) {
      StalledIsOverrun(m, now);
    }
  }

  lemma ObserveKeepsValid(m: Meter, at: Time, receive: bool)
    requires Valid(m)
    ensures Valid(Observe(m, at, receive))
    ensures Observe(m, at, receive).event == Some(Clamped(m, at))
  {
    hide Charge, Stalled, Continuous, Quotient;
    var now := Clamped(m, at);
    CountedKeepsEpisode(m, now);
    LearnKeepsRanges(Counted(m, now), Since(now, m.rx));
  }

  /** The threshold is always between 150 milliseconds and one second. */
  lemma ThresholdIsBounded(m: Meter)
    requires Valid(m)
    ensures LEAST_STALL <= Threshold(m) <= SECOND
  {
  }

  // ---- Runs ----

  datatype Packet = Packet(at: Time, receive: bool)

  function After(m: Meter, packets: seq<Packet>): Meter
    decreases |packets|
  {
    if packets == [] then m
    else
      var last := packets[|packets| - 1];
      Observe(After(m, packets[..|packets| - 1]), last.at, last.receive)
  }

  lemma {:induction false} RunKeepsValid(m: Meter, packets: seq<Packet>)
    requires Valid(m)
    ensures Valid(After(m, packets))
    decreases |packets|
  {
    if packets != [] {
      var init, last := packets[..|packets| - 1], packets[|packets| - 1];
      RunKeepsValid(m, init);
      ObserveKeepsValid(After(m, init), last.at, last.receive);
    }
  }

  /** Over every run the excess is part of the active time, and the learned gap stays in its range. */
  lemma ExcessWithinActive(packets: seq<Packet>)
    ensures var m := After(NEW_METER, packets);
      && 0 <= m.pending.excess <= m.pending.active
      && 0 <= m.typical <= LONGEST_GAP
      && LEAST_STALL <= Threshold(m) <= SECOND
  {
    RunKeepsValid(NEW_METER, packets);
    ThresholdIsBounded(After(NEW_METER, packets));
  }

  /** An open receive gap: sends only, each of them continuing the traffic. */
  predicate Unbroken(m: Meter, packets: seq<Packet>) {
    forall k :: 0 <= k < |packets| ==> !packets[k].receive && Continues(m, packets, k)
  }

  predicate Continues(m: Meter, packets: seq<Packet>, k: nat)
    requires k < |packets|
  {
    var before := After(m, packets[..k]);
    Continuous(before, Clamped(before, packets[k].at))
  }

  /** One more send in an open gap. */
  lemma GapGrows(m: Meter, at: Time)
    requires Valid(m) && Armed(m) && Continuous(m, Clamped(m, at))
    ensures var m' := Observe(m, at, false);
      && Valid(m') && Armed(m') && m'.rx == m.rx && m'.typical == m.typical
      && m'.event.Some? && m'.event.value >= m.event.value
      && m'.pending == Plus(m.pending, Growth(m, m.event.value, m'.event.value))
  {
    ObserveKeepsValid(m, at, false);
    ChargeIsGrowth(m, at);
    hide Charge, Growth, Valid, Stalled, Continuous, Plus;
  }

  /**
   However its sends slice an open gap, the charges add up to how far the gap has outgrown the
   threshold, with one event if and only if it has.
   */
  lemma {:induction false} GapTelescopes(m: Meter, packets: seq<Packet>)
    requires Valid(m) && Armed(m) && Unbroken(m, packets)
    ensures var m' := After(m, packets);
      && Valid(m') && Armed(m') && m'.rx == m.rx && m'.typical == m.typical
      && m'.event.Some? && m'.event.value >= m.event.value
      && m'.pending == Plus(m.pending, Growth(m, m.event.value, m'.event.value))
    decreases |packets|
  {
    hide Observe, Continuous, EpisodeOk, PendingOk, LearnedOk;
    if packets != [] {
      var n := |packets| - 1;
      var init := packets[..n];
      UnbrokenBefore(m, packets);
      GapTelescopes(m, init);
      var before := After(m, init);
      assert Continues(m, packets, n);
      GapGrows(before, packets[n].at);
      GrowthAdds(m, m.event.value, before.event.value, After(m, packets).event.value);
    }
  }

  lemma UnbrokenBefore(m: Meter, packets: seq<Packet>)
    requires packets != [] && Unbroken(m, packets)
    ensures Unbroken(m, packets[..|packets| - 1])
  {
    hide Continuous, After;
    var init := packets[..|packets| - 1];
    forall k | 0 <= k < |init|
      ensures !init[k].receive && Continues(m, init, k)
    {
      assert init[..k] == packets[..k] && Continues(m, packets, k);
    }
  }

  /**
   A whole gap, from the receive that opens it to the receive that ends it: its excess is
   max(0, length - threshold), and it is one event exactly when it is longer than the threshold.
   */
  lemma WholeGap(m: Meter, sends: seq<Packet>, at: Time)
    requires Valid(m) && Armed(m) && m.event == m.rx && Unbroken(m, sends)
    requires var m' := After(m, sends); Continuous(m', Clamped(m', at))
    ensures var end := Observe(After(m, sends), at, true);
      && end.event.Some? && end.rx == end.event
      && var length := end.event.value - m.rx.value;
      end.pending == Plus(m.pending, Delta(length, Max(0, length - Threshold(m)),
                                           if length > Threshold(m) then 1 else 0))
  {
    hide Observe, Growth, Continuous, EpisodeOk, PendingOk, LearnedOk, Threshold;
    GapTelescopes(m, sends);
    var before := After(m, sends);
    GapEnds(before, at);
    GrowthAdds(m, m.event.value, before.event.value, Clamped(before, at));
    SameGrowth(m, before, before.event.value, Clamped(before, at));
    GapCharge(m, Clamped(before, at));
  }

  lemma GapEnds(m: Meter, at: Time)
    requires Valid(m) && Armed(m) && Continuous(m, Clamped(m, at))
    ensures var m' := Observe(m, at, true);
      && m'.event == Some(Clamped(m, at)) && m'.rx == m'.event
      && m'.pending == Plus(m.pending, Growth(m, m.event.value, Clamped(m, at)))
  {
    ChargeIsGrowth(m, at);
    hide Charge, Growth, Valid, Stalled, Continuous, Plus, Quotient;
  }

  lemma SameGrowth(m: Meter, m': Meter, from: Time, to: Time)
    requires m.rx.Some? && m'.rx == m.rx && m'.typical == m.typical
    ensures Growth(m', from, to) == Growth(m, from, to)
  {
  }

  lemma GapCharge(m: Meter, to: Time)
    requires Valid(m) && Armed(m) && m.event == m.rx && m.rx.value <= to
    ensures var length := to - m.rx.value;
      Growth(m, m.rx.value, to) == Delta(length, Max(0, length - Threshold(m)), if length > Threshold(m) then 1 else 0)
  {
    ThresholdIsBounded(m);
  }

  // ---- A whole run, gap by gap ----

  /** A receive gap of an armed meter, with the last time traffic was seen to go on inside it. */
  datatype Gap = Gap(threshold: int, start: Time, last: Time)

  function Worth(g: Gap): Delta {
    var length := g.last - g.start;
    Delta(length, Max(0, length - g.threshold), if length > g.threshold then 1 else 0)
  }

  function TotalWorth(gaps: seq<Gap>): Delta {
    if gaps == [] then NOTHING else Plus(TotalWorth(gaps[..|gaps| - 1]), Worth(gaps[|gaps| - 1]))
  }

  /** The gaps after one more packet: the open one may grow, and a receive opens the next. */
  function NextGaps(m: Meter, gaps: seq<Gap>, p: Packet): seq<Gap> {
    var now, m' := Clamped(m, p.at), Observe(m, p.at, p.receive);
    var grown := if Armed(m) && Continuous(m, now) && gaps != []
                 then gaps[|gaps| - 1 := gaps[|gaps| - 1].(last := now)]
                 else gaps;
    if p.receive && Armed(m') then grown + [Gap(Threshold(m'), now, now)] else grown
  }

  function Gaps(packets: seq<Packet>): seq<Gap>
    decreases |packets|
  {
    if packets == [] then []
    else
      var init := packets[..|packets| - 1];
      NextGaps(After(NEW_METER, init), Gaps(init), packets[|packets| - 1])
  }

  /** The last gap is the one the meter is in. */
  predicate Matches(m: Meter, gaps: seq<Gap>)
    requires TimesOk(m)
  {
    && (Armed(m) ==> gaps != [] && gaps[|gaps| - 1] == Gap(Threshold(m), m.rx.value, m.event.value))
    && m.pending == TotalWorth(gaps)
  }

  lemma NewGapIsWorthless(gaps: seq<Gap>, threshold: int, at: Time)
    requires threshold >= 0
    ensures TotalWorth(gaps + [Gap(threshold, at, at)]) == TotalWorth(gaps)
  {
    var more := gaps + [Gap(threshold, at, at)];
    assert more[..|more| - 1] == gaps;
  }

  lemma LastGapGrows(m: Meter, gaps: seq<Gap>, now: Time)
    requires Valid(m) && Armed(m) && Matches(m, gaps) && now >= m.event.value
    ensures var n := |gaps| - 1;
      TotalWorth(gaps[n := gaps[n].(last := now)]) == Plus(m.pending, Growth(m, m.event.value, now))
  {
    var n := |gaps| - 1;
    var grown := gaps[n := gaps[n].(last := now)];
    assert grown[..n] == gaps[..n];
    ThresholdIsBounded(m);
    hide Threshold, EpisodeOk, LearnedOk, PendingOk;
  }

  /** What one packet does to the pending sums, the receive time and the learned gap. */
  lemma ObserveCharges(m: Meter, p: Packet)
    ensures var now, m' := Clamped(m, p.at), Observe(m, p.at, p.receive);
      && m'.event == Some(now) && m'.pending == Plus(m.pending, Charge(m, now))
      && (p.receive ==> m'.rx == Some(now))
      && (!p.receive && Continuous(m, now) ==> m'.rx == m.rx && m'.typical == m.typical && m'.intervals == m.intervals)
      && (!p.receive && !Continuous(m, now) ==> !Armed(m'))
  {
    hide Charge, Plus, Continuous, Stalled, Quotient, Clamped;
  }

  lemma MatchKept(m: Meter, gaps: seq<Gap>, p: Packet)
    requires Valid(m) && Matches(m, gaps)
    ensures Valid(Observe(m, p.at, p.receive)) && Matches(Observe(m, p.at, p.receive), NextGaps(m, gaps, p))
  {
    hide Observe, Charge, Continuous, EpisodeOk, LearnedOk, PendingOk, Growth, TotalWorth, Threshold;
    var now, m' := Clamped(m, p.at), Observe(m, p.at, p.receive);
    ObserveKeepsValid(m, p.at, p.receive);
    ObserveCharges(m, p);
    ThresholdIsBounded(m');
    var grown := gaps;
    if Armed(m) && Continuous(m, now) {
      ChargeIsGrowth(m, p.at);
      LastGapGrows(m, gaps, now);
      grown := gaps[|gaps| - 1 := gaps[|gaps| - 1].(last := now)];
    } else {
      NothingCharged(m, now);
    }
    NewGapIsWorthless(grown, Threshold(m'), now);
    SameThreshold(m, m');
  }

  lemma NothingCharged(m: Meter, now: Time)
    requires !Continuous(m, now) || !Armed(m)
    ensures Plus(m.pending, Charge(m, now)) == m.pending
  {
    hide Continuous;
  }

  lemma SameThreshold(m: Meter, m': Meter)
    ensures m'.typical == m.typical ==> Threshold(m') == Threshold(m)
  {
  }

  /**
   Over every run, what the meter has charged is the sum over the receive gaps of their lengths,
   of how far each outgrew its threshold, and of one event for each that did.
   */
  lemma {:induction false} ChargesAreGapByGap(packets: seq<Packet>)
    ensures var m := After(NEW_METER, packets);
      Valid(m) && Matches(m, Gaps(packets)) && m.pending == TotalWorth(Gaps(packets))
    decreases |packets|
  {
    if packets != [] {
      hide Observe, NextGaps, EpisodeOk, LearnedOk, PendingOk, TotalWorth;
      var init := packets[..|packets| - 1];
      ChargesAreGapByGap(init);
      MatchKept(After(NEW_METER, init), Gaps(init), packets[|packets| - 1]);
    }
  }
}
