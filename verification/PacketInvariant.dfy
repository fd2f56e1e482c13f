/** What every step of the UDP session keeps. */
module PacketInvariant {
  import opened Options
  import opened PacketState
  import opened PacketSteps
  import opened Subsequences

  // ---- Ownership: every packet is in one place, or released once ----

  /** The packets a caller of `Send` or a drain has in its hands. */
  function Held(pc: Pc): set<nat> {
    match pc
    case SendWait(p) => {p.id}
    case SendLocked(q) => {q.packet.id}
    case SendDrop(p) => {p.id}
    case DrainDrop(p) => {p.id}
    case CloseWait => {}
    case Draining => {}
  }

  function HeldBy(threads: map<Tid, Pc>, t: Tid): set<nat> {
    if t in threads then Held(threads[t]) else {}
  }

  /** The packet the processor has in its hands. */
  function Processed(proc: Proc): set<nat> {
    match proc
    case Holding(_, q) => {q.packet.id}
    case Mapping(_, q) => {q.packet.id}
    case Rechecking(_, q, _) => {q.packet.id}
    case Writing(_, q, _, _) => {q.packet.id}
    case Releasing(_, p) => {p.id}
    case _ => {}
  }

  function Ids(queue: seq<Queued>): (ids: seq<nat>)
    ensures |ids| == |queue| && forall k :: 0 <= k < |ids| ==> ids[k] == queue[k].packet.id
  {
    seq(|queue|, k requires 0 <= k < |queue| => queue[k].packet.id)
  }

  predicate Unreleased(drops: map<nat, nat>, id: nat) {
    id in drops && drops[id] == 0
  }

  /** Whatever is in somebody's hands or queued was given, is not released, and is nowhere else. */
  ghost predicate Exclusive(threads: map<Tid, Pc>, queued: seq<nat>, processed: set<nat>, drops: map<nat, nat>) {
    && (forall t, id :: id in HeldBy(threads, t) ==> Unreleased(drops, id) && id !in queued && id !in processed)
    && (forall t, u, id :: id in HeldBy(threads, t) && id in HeldBy(threads, u) ==> t == u)
    && (forall k :: 0 <= k < |queued| ==> Unreleased(drops, queued[k]) && queued[k] !in processed)
    && (forall k, j :: 0 <= k < j < |queued| ==> queued[k] != queued[j])
    && (forall id :: id in processed ==> Unreleased(drops, id))
  }

  ghost predicate InHands(threads: map<Tid, Pc>, id: nat) {
    exists t :: id in HeldBy(threads, t)
  }

  /** Every packet ever given is released exactly once or still somewhere. */
  ghost predicate NoneLost(threads: map<Tid, Pc>, queued: seq<nat>, processed: set<nat>, drops: map<nat, nat>) {
    forall id :: id in drops ==>
      drops[id] == 1 || (drops[id] == 0 && (id in queued || InHands(threads, id) || id in processed))
  }

  ghost predicate Custody(threads: map<Tid, Pc>, queued: seq<nat>, processed: set<nat>, drops: map<nat, nat>) {
    Exclusive(threads, queued, processed, drops) && NoneLost(threads, queued, processed, drops)
  }

  ghost predicate Ownership(s: State) {
    Custody(s.threads, Ids(s.sender.queue), Processed(s.proc), s.drops)
  }

  // ---- Closing ----

  /** The mutex is held exactly by the sender between its check and its channel operation. */
  predicate Locking(s: State) {
    forall t :: t in s.threads ==> (s.threads[t].SendLocked? <==> s.mutex == Some(t))
  }

  predicate MutexHeld(s: State) {
    s.mutex.Some? ==> s.mutex.value in s.threads
  }

  predicate SomeDraining(s: State) {
    exists t :: t in s.threads && (s.threads[t].Draining? || s.threads[t].DrainDrop?)
  }

  predicate SomeClosing(s: State) {
    exists t :: t in s.threads && s.threads[t].CloseWait?
  }

  predicate Closing(s: State) {
    && |s.sender.queue| <= CAPACITY
    && (s.sender.closed ==> s.mutex.None? && (s.drained || SomeDraining(s)))
    && (forall t :: t in s.threads && (s.threads[t].Draining? || s.threads[t].DrainDrop?) ==> s.sender.closed)
    && (s.drained ==> s.sender.closed && s.sender.queue == [])
    && (s.proc.Stopped? ==> s.sender.closed || SomeClosing(s))
  }

  // ---- Order ----

  function Written(writes: seq<Write>): (qs: seq<Queued>)
    ensures |qs| == |writes| && forall k :: 0 <= k < |qs| ==> qs[k] == writes[k].queued
  {
    seq(|writes|, k requires 0 <= k < |writes| => writes[k].queued)
  }

  /** The packet the processor may still write. */
  function Pending(proc: Proc): Option<Queued> {
    match proc
    case Holding(_, q) => Some(q)
    case Mapping(_, q) => Some(q)
    case Rechecking(_, q, _) => Some(q)
    case Writing(_, q, _, _) => Some(q)
    case _ => None
  }

  predicate InOrder(writes: seq<Write>, pending: Option<Queued>, taken: seq<Queued>) {
    match pending
    case None => Subsequence(Written(writes), taken)
    case Some(q) => Subsequence(Written(writes) + [q], taken)
  }

  predicate Ordered(s: State) {
    s.admitted == s.taken + s.sender.queue && InOrder(s.writes, Pending(s.proc), s.taken)
  }

  // ---- Expiry ----

  predicate Stamped(s: State) {
    s.sender.maxQueueDelay != 0 ==>
      && (forall k :: 0 <= k < |s.sender.queue| ==> s.sender.queue[k].queuedAt.Some?)
      && (forall t :: t in s.threads && s.threads[t].SendLocked? ==> s.threads[t].queued.queuedAt.Some?)
      && (Pending(s.proc).Some? ==> Pending(s.proc).value.queuedAt.Some?)
  }

  predicate Policy(s: State) {
    match s.proc
    case Dialing => s.sender.maxQueueDelay == -1
    case Established(d) => s.sender.maxQueueDelay == -1 && d >= 0
    case Stopped => true
    case _ => s.proc.maxDelay == s.sender.maxQueueDelay >= 0
  }

  predicate InTime(w: Write) {
    w.maxDelay > 0 ==> w.queued.queuedAt.Some? && w.checkedAt - w.queued.queuedAt.value < w.maxDelay
  }

  predicate Timely(s: State) {
    && (forall k :: 0 <= k < |s.writes| ==> InTime(s.writes[k]))
    && (s.proc.Writing? ==> InTime(Write(s.proc.queued, s.proc.addr, s.proc.maxDelay, s.proc.checkedAt)))
  }

  predicate Expiry(s: State) {
    Stamped(s) && Policy(s) && Timely(s)
  }

  // ---- Destinations ----

  predicate MapsTo(s: State, key: string, addr: Addr) {
    key in s.sender.originToTarget && s.sender.originToTarget[key] == addr
  }

  predicate Destinations(s: State) {
    && (forall k :: 0 <= k < |s.writes| ==> MapsTo(s, s.writes[k].queued.packet.key, s.writes[k].addr))
    && (s.proc.Rechecking? || s.proc.Writing? ==> MapsTo(s, s.proc.queued.packet.key, s.proc.addr))
  }

  ghost predicate Inv(s: State) {
    Ownership(s) && Locking(s) && MutexHeld(s) && Closing(s) && Ordered(s) && Expiry(s) && Destinations(s)
  }

  // ---- Preservation ----

  lemma LockingKeptByCaller(s: State, t: Tid, step: CallerStep, s': State)
    requires NextCaller(s, t, step, s') && Locking(s) && MutexHeld(s)
    ensures Locking(s') && MutexHeld(s')
  {
  }

  lemma LockingKeptByProcess(s: State, step: ProcessStep, s': State)
    requires NextProcess(s, step, s') && Locking(s) && MutexHeld(s)
    ensures Locking(s') && MutexHeld(s')
  {
    assert step.DialFailed? || s'.threads == s.threads;
  }

  lemma ClosingKeptByCaller(s: State, t: Tid, step: CallerStep, s': State)
    requires NextCaller(s, t, step, s') && Locking(s) && Closing(s)
    ensures Closing(s')
  {
    if SomeDraining(s) {
      var u :| u in s.threads && (s.threads[u].Draining? || s.threads[u].DrainDrop?);
      assert u != t ==> u in s'.threads && s'.threads[u] == s.threads[u];
    }
    if SomeClosing(s) {
      var u :| u in s.threads && s.threads[u].CloseWait?;
      assert u != t ==> u in s'.threads && s'.threads[u] == s.threads[u];
    }
    assert step.DrainDropped? || step.CloseEntered? || (step.Drained? && s.sender.queue != []) ==>
           s'.sender.closed && (t in s'.threads ==> s'.threads[t].Draining? || s'.threads[t].DrainDrop?);
  }

  lemma ClosingKeptByProcess(s: State, step: ProcessStep, s': State)
    requires NextProcess(s, step, s') && Closing(s)
    ensures Closing(s')
  {
    if step.DialFailed? {
      assert step.t in s'.threads && s'.threads[step.t].CloseWait?;
      assert SomeDraining(s) ==> SomeDraining(s') by {
        if SomeDraining(s) {
          var u :| u in s.threads && (s.threads[u].Draining? || s.threads[u].DrainDrop?);
          assert u in s'.threads && s'.threads[u] == s.threads[u];
        }
      }
    }
  }

  lemma OtherTakes(writes: seq<Write>, pending: Option<Queued>, taken: seq<Queued>, q: Queued)
    requires InOrder(writes, pending, taken)
    ensures InOrder(writes, pending, taken + [q])
    ensures pending.None? ==> InOrder(writes, Some(q), taken + [q])
  {
    SubsequenceOfMore(if pending.None? then Written(writes) else Written(writes) + [pending.value], taken, q);
  }

  lemma PendingGivenUp(writes: seq<Write>, pending: Option<Queued>, taken: seq<Queued>)
    requires InOrder(writes, pending, taken)
    ensures InOrder(writes, None, taken)
  {
    if pending.Some? {
      LessIsSubsequence(Written(writes), pending.value, taken);
    }
  }

  lemma PendingWritten(writes: seq<Write>, w: Write, taken: seq<Queued>)
    requires InOrder(writes, Some(w.queued), taken)
    ensures InOrder(writes + [w], None, taken)
  {
    assert Written(writes + [w]) == Written(writes) + [w.queued];
  }

  lemma HeadMoves(taken: seq<Queued>, queue: seq<Queued>)
    requires queue != []
    ensures taken + queue == taken + [queue[0]] + queue[1..]
  {
  }

  lemma OrderedKeptByCaller(s: State, t: Tid, step: CallerStep, s': State)
    requires NextCaller(s, t, step, s') && Ordered(s)
    ensures Ordered(s')
  {
    hide InOrder;
    if step.Drained? && s.sender.queue != [] {
      HeadMoves(s.taken, s.sender.queue);
      OtherTakes(s.writes, Pending(s.proc), s.taken, s.sender.queue[0]);
    }
  }

  lemma OrderedKeptByProcess(s: State, step: ProcessStep, s': State)
    requires NextProcess(s, step, s') && Ordered(s)
    ensures Ordered(s')
  {
    hide InOrder;
    if step.ProcessTook? {
      HeadMoves(s.taken, s.sender.queue);
      OtherTakes(s.writes, None, s.taken, s.sender.queue[0]);
    } else if step.Wrote? {
      PendingWritten(s.writes, s'.writes[|s.writes|], s.taken);
    } else {
      PendingGivenUp(s.writes, Pending(s.proc), s.taken);
    }
  }

  lemma ExpiryKeptByCaller(s: State, t: Tid, step: CallerStep, s': State)
    requires NextCaller(s, t, step, s') && Expiry(s)
    ensures Expiry(s')
  {
  }

  lemma ExpiryKeptByProcess(s: State, step: ProcessStep, s': State)
    requires NextProcess(s, step, s') && Expiry(s)
    ensures Expiry(s')
  {
  }

  lemma DestinationsKeptByCaller(s: State, t: Tid, step: CallerStep, s': State)
    requires NextCaller(s, t, step, s') && Destinations(s)
    ensures Destinations(s')
  {
    assert s'.sender.originToTarget == s.sender.originToTarget && s'.proc == s.proc && s'.writes == s.writes;
  }

  lemma DestinationsKeptByProcess(s: State, step: ProcessStep, s': State)
    requires NextProcess(s, step, s') && Destinations(s)
    ensures Destinations(s') && Extends(s.sender.originToTarget, s'.sender.originToTarget)
  {
  }

  // ---- Packets change hands ----

  lemma NobodyMoves(threads: map<Tid, Pc>, threads': map<Tid, Pc>, queued: seq<nat>, processed: set<nat>,
                    drops: map<nat, nat>)
    requires Custody(threads, queued, processed, drops)
    requires forall t :: HeldBy(threads', t) == HeldBy(threads, t)
    ensures Custody(threads', queued, processed, drops)
  {
    forall id | InHands(threads, id)
      ensures InHands(threads', id)
    {
      var t :| id in HeldBy(threads, t);
      assert id in HeldBy(threads', t);
    }
  }

  /** The caller `t` had `id`, and now it has not. */
  ghost predicate LetsGo(threads: map<Tid, Pc>, t: Tid, id: nat, threads': map<Tid, Pc>) {
    && HeldBy(threads, t) == {id} && HeldBy(threads', t) == {}
    && forall u :: u != t ==> HeldBy(threads', u) == HeldBy(threads, u)
  }

  lemma OthersStillHold(threads: map<Tid, Pc>, t: Tid, id: nat, threads': map<Tid, Pc>, i: nat)
    requires LetsGo(threads, t, id, threads') && InHands(threads, i) && i != id
    ensures InHands(threads', i)
  {
    var u :| i in HeldBy(threads, u);
    assert i in HeldBy(threads', u);
  }

  lemma ReceivedIsExclusive(threads: map<Tid, Pc>, t: Tid, id: nat, threads': map<Tid, Pc>,
                            queued: seq<nat>, processed: set<nat>, drops: map<nat, nat>)
    requires Exclusive(threads, queued, processed, drops) && LetsGo(threads', t, id, threads) && id !in drops
    ensures Exclusive(threads', queued, processed, drops[id := 0])
  {
    var drops' := drops[id := 0];
    forall u, i | i in HeldBy(threads', u)
      ensures Unreleased(drops', i) && i !in queued && i !in processed
    {
      if u != t {
        assert i in HeldBy(threads, u) && Unreleased(drops, i);
      }
    }
    forall u, v, i | i in HeldBy(threads', u) && i in HeldBy(threads', v)
      ensures u == v
    {
      if u != t {
        assert i in HeldBy(threads, u) && Unreleased(drops, i) && i != id;
      }
      if v != t {
        assert i in HeldBy(threads, v) && Unreleased(drops, i) && i != id;
      }
    }
    forall k | 0 <= k < |queued|
      ensures Unreleased(drops', queued[k]) && queued[k] !in processed
    {
      assert Unreleased(drops, queued[k]);
    }
  }

  lemma CallerReceives(threads: map<Tid, Pc>, t: Tid, id: nat, threads': map<Tid, Pc>,
                       queued: seq<nat>, processed: set<nat>, drops: map<nat, nat>)
    requires Custody(threads, queued, processed, drops) && LetsGo(threads', t, id, threads) && id !in drops
    ensures Custody(threads', queued, processed, drops[id := 0])
  {
    hide Exclusive;
    ReceivedIsExclusive(threads, t, id, threads', queued, processed, drops);
    assert id in HeldBy(threads', t);
    forall i | InHands(threads, i)
      ensures InHands(threads', i)
    {
      var u :| i in HeldBy(threads, u);
      assert i in HeldBy(threads', u);
    }
  }

  lemma CallerQueues(threads: map<Tid, Pc>, t: Tid, id: nat, threads': map<Tid, Pc>,
                     queued: seq<nat>, processed: set<nat>, drops: map<nat, nat>)
    requires Custody(threads, queued, processed, drops) && LetsGo(threads, t, id, threads')
    ensures Custody(threads', queued + [id], processed, drops)
  {
    assert forall u :: id in HeldBy(threads, u) ==> u == t;
    forall i | InHands(threads, i) && i != id
      ensures InHands(threads', i)
    {
      OthersStillHold(threads, t, id, threads', i);
    }
  }

  lemma CallerReleases(threads: map<Tid, Pc>, t: Tid, id: nat, threads': map<Tid, Pc>,
                       queued: seq<nat>, processed: set<nat>, drops: map<nat, nat>)
    requires Custody(threads, queued, processed, drops) && LetsGo(threads, t, id, threads')
    ensures Custody(threads', queued, processed, drops[id := 1])
  {
    forall u, i | i in HeldBy(threads', u)
      ensures Unreleased(drops[id := 1], i)
    {
      assert i in HeldBy(threads, u) && Unreleased(drops, i);
    }
    assert forall u :: id in HeldBy(threads, u) ==> u == t;
    forall i | InHands(threads, i) && i != id
      ensures InHands(threads', i)
    {
      OthersStillHold(threads, t, id, threads', i);
    }
  }

  lemma DrainTakes(threads: map<Tid, Pc>, t: Tid, threads': map<Tid, Pc>, queued: seq<nat>, processed: set<nat>,
                   drops: map<nat, nat>)
    requires queued != [] && Custody(threads, queued, processed, drops) && LetsGo(threads', t, queued[0], threads)
    ensures Custody(threads', queued[1..], processed, drops)
  {
    assert queued == [queued[0]] + queued[1..];
    assert queued[0] in HeldBy(threads', t);
    forall i | InHands(threads, i)
      ensures InHands(threads', i)
    {
      var u :| i in HeldBy(threads, u);
      assert i in HeldBy(threads', u);
    }
  }

  lemma ProcessTakes(threads: map<Tid, Pc>, queued: seq<nat>, drops: map<nat, nat>)
    requires queued != [] && Custody(threads, queued, {}, drops)
    ensures Custody(threads, queued[1..], {queued[0]}, drops)
  {
    assert queued == [queued[0]] + queued[1..];
  }

  lemma ProcessReleases(threads: map<Tid, Pc>, queued: seq<nat>, id: nat, drops: map<nat, nat>)
    requires Custody(threads, queued, {id}, drops)
    ensures Custody(threads, queued, {}, drops[id := 1])
  {
    forall t, i | i in HeldBy(threads, t)
      ensures Unreleased(drops[id := 1], i)
    {
      assert Unreleased(drops, i) && i !in {id};
    }
  }

  lemma HandedOver(s: State, t: Tid, step: CallerStep, s': State)
    requires NextCaller(s, t, step, s')
    ensures forall u :: u != t ==> HeldBy(s'.threads, u) == HeldBy(s.threads, u)
  {
  }

  lemma OwnershipKeptByCaller(s: State, t: Tid, step: CallerStep, s': State)
    requires NextCaller(s, t, step, s') && Ownership(s)
    ensures Ownership(s')
  {
    hide Custody, Ids;
    var queued, processed := Ids(s.sender.queue), Processed(s.proc);
    HandedOver(s, t, step, s');
    match step
    case SendCalled(p) => CallerReceives(s.threads, t, p.id, s'.threads, queued, processed, s.drops);
    case SendPushed =>
      if |s.sender.queue| < CAPACITY {
        CallerQueues(s.threads, t, s.threads[t].queued.packet.id, s'.threads, queued, processed, s.drops);
        assert Ids(s'.sender.queue) == queued + [s.threads[t].queued.packet.id];
      } else {
        NobodyMoves(s.threads, s'.threads, queued, processed, s.drops);
      }
    case SendDropped => ReleasedOnce(s, t, s');
    case DrainDropped => ReleasedOnce(s, t, s');
    case Drained =>
      if s.sender.queue == [] {
        NobodyMoves(s.threads, s'.threads, queued, processed, s.drops);
      } else {
        DrainTakes(s.threads, t, s'.threads, queued, processed, s.drops);
        assert Ids(s'.sender.queue) == queued[1..];
      }
    case _ => NobodyMoves(s.threads, s'.threads, queued, processed, s.drops);
  }

  lemma ReleasedOnce(s: State, t: Tid, s': State)
    requires NextSendDropped(s, t, s') || NextDrainDropped(s, t, s')
    requires Ownership(s)
    ensures Ownership(s')
  {
    var id := s.threads[t].packet.id;
    assert HeldBy(s.threads, t) == {id} && Unreleased(s.drops, id);
    CallerReleases(s.threads, t, id, s'.threads, Ids(s.sender.queue), Processed(s.proc), s.drops);
  }

  lemma OwnershipKeptByProcess(s: State, step: ProcessStep, s': State)
    requires NextProcess(s, step, s') && Ownership(s)
    ensures Ownership(s')
  {
    hide Custody, Ids;
    var queued := Ids(s.sender.queue);
    if step.DialFailed? {
      NobodyMoves(s.threads, s'.threads, queued, {}, s.drops);
    } else if step.ProcessTook? {
      ProcessTakes(s.threads, queued, s.drops);
      assert Ids(s'.sender.queue) == queued[1..];
    } else if step.Released? {
      ProcessReleasesOnce(s, s');
    }
  }

  lemma ProcessReleasesOnce(s: State, s': State)
    requires NextProcess(s, Released, s') && Ownership(s)
    ensures Ownership(s')
  {
    var id := s.proc.packet.id;
    assert id in Processed(s.proc) && Unreleased(s.drops, id);
    ProcessReleases(s.threads, Ids(s.sender.queue), id, s.drops);
  }
}
