/** A path whose meter is flushed into the history: from packets to evidence. */
module StallPath {
  import opened Options
  import opened Stalls
  import opened StallFlush
  import opened StallRing
  import opened StallHistory
  import StallMeter

  /** Length of a bucket: five minutes. */
  const SPAN := 300_000_000_000

  function SlotOf(at: Time): nat
    requires at >= 0
  {
    at / SPAN
  }

  class FlowPath {
    const stalls: StallMeter.StallMeter
    const history: AntiHistory
    const keys: seq<string>
    var merged: seq<Merge>

    ghost function View(): Path
      reads this, stalls
    {
      Path(stalls.View(), merged)
    }

    ghost predicate Valid()
      reads this, stalls, history, history.Arrays()
    {
      && history.Valid() && history.AllOk()
      && Stalls.Valid(stalls.View()) && Dated(stalls.View()) && NotNegative(View())
    }

    constructor (history: AntiHistory, keys: seq<string>)
      requires history.Valid() && history.AllOk()
      ensures this.history == history && this.keys == keys && fresh(stalls)
      ensures Valid() && View() == NEW_PATH
    {
      this.history, this.keys := history, keys;
      stalls := new StallMeter.StallMeter();
      merged := [];
    }

    /** What is flushed goes into the history under the keys of the flow. */
    method FlushStalls(force: bool)
      requires Valid()
      modifies this, stalls, history, history.Arrays()
      ensures Valid() && fresh(history.Arrays() - old(history.Arrays()))
      ensures View() == Flush(old(View()), force)
      ensures old(merged) <= merged && DatedFrom(merged, |old(merged)|)
      ensures history.logs == LoggedMerges(old(history.logs), keys, merged, |old(merged)|)
    {
      hide EpisodeOk, LearnedOk, Logged, Replay, AntiHistory.Valid;
      FlushKeepsTotal(View(), force);
      if stalls.pending.active <= 0 || (!force && stalls.pending.active < COARSE) {
        return;
      }
      ghost var before := merged;
      LoggedKeepsOk(history.logs, keys, Entry(SlotOf(stalls.event.value), stalls.pending), |keys|);
      history.AddStalls(keys, stalls.pending, SlotOf(stalls.event.value));
      merged := merged + [Merge(stalls.pending, stalls.event)];
      assert merged[..|merged| - 1] == before;
      stalls.pending := NOTHING;
    }

    method Observe(at: Time, receive: bool)
      requires Valid() && at >= 0
      modifies this, stalls, history, history.Arrays()
      ensures Valid() && fresh(history.Arrays() - old(history.Arrays()))
      ensures View() == ObserveStalls(old(View()), at, receive)
      ensures old(merged) <= merged && DatedFrom(merged, |old(merged)|)
      ensures history.logs == LoggedMerges(old(history.logs), keys, merged, |old(merged)|)
    {
      hide Flush, Stalls.Observe, Stalls.Valid, LoggedMerges, AntiHistory.Valid, AntiHistory.AllOk;
      if stalls.pending.active > 0 && Since(at, stalls.event) > SECOND {
        FlushStalls(true);
      }
      ghost var settled := merged;
      ObserveKeepsValid(stalls.View(), at, receive);
      ObserveKeepsDated(stalls.View(), at, receive);
      stalls.Observe(at, receive);
      FlushStalls(false);
      LoggedInTwo(old(history.logs), keys, settled, merged, |old(merged)|);
    }
  }

  predicate DatedFrom(merged: seq<Merge>, from: nat) {
    from <= |merged| && forall k :: from <= k < |merged| ==> merged[k].at.Some? && merged[k].at.value >= 0
  }

  /** Merges as entries of a log. */
  function Entries(merged: seq<Merge>): (log: seq<Entry>)
    requires DatedFrom(merged, 0)
    ensures |log| == |merged|
    ensures forall k :: 0 <= k < |log| ==> log[k] == Entry(SlotOf(merged[k].at.value), merged[k].delta)
  {
    seq(|merged|, k requires 0 <= k < |merged| => Entry(SlotOf(merged[k].at.value), merged[k].delta))
  }

  lemma DatedMergesAreEntries(p: Path)
    requires NotNegative(p) && forall k :: 0 <= k < |p.merged| ==> MergeOk(p.merged[k])
    ensures DatedFrom(p.merged, 0) && EntriesOk(Entries(p.merged))
  {
    hide PendingOk;
    forall k | 0 <= k < |p.merged|
      ensures p.merged[k].at.Some? && p.merged[k].at.value >= 0 && PendingOk(p.merged[k].delta)
    {
      assert MergeOk(p.merged[k]);
    }
  }

  /** What a path merges is dated and is what a meter can hand over. */
  lemma MergesAreEntries(packets: seq<Packet>)
    requires forall k :: 0 <= k < |packets| ==> packets[k].at >= 0
    ensures DatedFrom(AfterFlushing(packets).merged, 0) && EntriesOk(Entries(AfterFlushing(packets).merged))
  {
    hide AfterFlushing, Stalls.Valid, Dated, MergeOk, NotNegative, Total, TotalWorth, Gaps, After, EntriesOk, DatedFrom;
    FlushingLosesNothing(packets);
    MergesAreNotNegative(packets);
    DatedMergesAreEntries(AfterFlushing(packets));
  }

  /**
   From packets to evidence: whatever a path has seen, the evidence that its merges leave at a slot
   none of them is after is judged from the merges of the last six slots, and its penalty is in range.
   */
  lemma EvidenceOfPackets(packets: seq<Packet>, now: int)
    requires forall k :: 0 <= k < |packets| ==> packets[k].at >= 0
    ensures DatedFrom(AfterFlushing(packets).merged, 0)
    ensures var log := Entries(AfterFlushing(packets).merged); NoneAfter(log, now) ==> JudgedFromRecent(log, now)
  {
    hide AfterFlushing, JudgedFromRecent, EntriesOk, DatedFrom, NoneAfter;
    MergesAreEntries(packets);
    var log := Entries(AfterFlushing(packets).merged);
    if NoneAfter(log, now) {
      EvidenceIsOfRecentMerges(log, now);
    }
  }

  /** The logs after the merges from number `from` on went to the keys of the flow. */
  function LoggedMerges(logs: map<string, seq<Entry>>, keys: seq<string>, merged: seq<Merge>, from: nat)
    : map<string, seq<Entry>>
    requires DatedFrom(merged, from)
    decreases |merged| - from
  {
    if from == |merged| then logs
    else
      var m := merged[|merged| - 1];
      Logged(LoggedMerges(logs, keys, merged[..|merged| - 1], from), keys, Entry(SlotOf(m.at.value), m.delta), |keys|)
  }

  lemma {:induction false} LoggedInTwo(logs: map<string, seq<Entry>>, keys: seq<string>, some: seq<Merge>,
                                       all: seq<Merge>, from: nat)
    requires some <= all && DatedFrom(some, from) && DatedFrom(all, |some|)
    ensures DatedFrom(all, from)
    ensures LoggedMerges(LoggedMerges(logs, keys, some, from), keys, all, |some|) == LoggedMerges(logs, keys, all, from)
    decreases |all|
  {
    hide Logged;
    assert forall k :: from <= k < |some| ==> all[k] == some[k];
    if |some| == |all| {
      assert some == all;
    } else {
      LoggedInTwo(logs, keys, some, all[..|all| - 1], from);
    }
  }
}
