/** What the UDP packet sender promises over every run. */
module PacketTheorems {
  import opened Options
  import opened PacketState
  import opened PacketSteps
  import opened PacketInvariant
  import opened Subsequences

  /** A finite prefix of an interleaving of senders, closers and the processor. */
  predicate IsRun(states: seq<State>, steps: seq<Step>) {
    && |states| == |steps| + 1
    && states[0] == INITIAL
    && (forall i :: 0 <= i < |steps| ==> Next(states[i], steps[i], states[i + 1]))
  }

  lemma StepKeepsInv(s: State, step: Step, s': State)
    requires Next(s, step, s') && Inv(s)
    ensures Inv(s')
  {
    hide Ownership, Locking, MutexHeld, Closing, Ordered, Expiry, Destinations, NextCaller, NextProcess;
    match step
    case Caller(t, caller) =>
      OwnershipKeptByCaller(s, t, caller, s');
      LockingKeptByCaller(s, t, caller, s');
      ClosingKeptByCaller(s, t, caller, s');
      OrderedKeptByCaller(s, t, caller, s');
      ExpiryKeptByCaller(s, t, caller, s');
      DestinationsKeptByCaller(s, t, caller, s');
    case Process(process) =>
      OwnershipKeptByProcess(s, process, s');
      LockingKeptByProcess(s, process, s');
      ClosingKeptByProcess(s, process, s');
      OrderedKeptByProcess(s, process, s');
      ExpiryKeptByProcess(s, process, s');
      DestinationsKeptByProcess(s, process, s');
  }

  lemma {:induction false} RunKeepsInv(states: seq<State>, steps: seq<Step>, i: nat)
    requires IsRun(states, steps) && i < |states|
    ensures Inv(states[i])
  {
    hide Next, Inv;
    if i == 0 {
      InitialInv();
    } else {
      RunKeepsInv(states, steps, i - 1);
      StepKeepsInv(states[i - 1], steps[i - 1], states[i]);
    }
  }

  lemma InitialInv()
    ensures Inv(INITIAL)
  {
  }

  /** `id` is in one place: released, queued, with the processor, or with one caller. */
  ghost predicate InOnePlace(s: State, id: nat)
    requires id in s.drops
  {
    var queued := Ids(s.sender.queue);
    && s.drops[id] <= 1
    && (s.drops[id] == 1 <==> id !in queued && !InHands(s.threads, id) && id !in Processed(s.proc))
    && (forall t, u :: id in HeldBy(s.threads, t) && id in HeldBy(s.threads, u) ==> t == u)
    && (forall j, k :: 0 <= j < |queued| && 0 <= k < |queued| && queued[j] == id && queued[k] == id ==> j == k)
    && (id in queued ==> !InHands(s.threads, id) && id !in Processed(s.proc))
    && (id in Processed(s.proc) ==> !InHands(s.threads, id))
  }

  lemma OwnedIsInOnePlace(s: State, id: nat)
    requires Ownership(s) && id in s.drops
    ensures InOnePlace(s, id)
  {
    if InHands(s.threads, id) {
      var t :| id in HeldBy(s.threads, t);
      assert Unreleased(s.drops, id);
    }
    if id in Ids(s.sender.queue) {
      var k :| 0 <= k < |s.sender.queue| && Ids(s.sender.queue)[k] == id;
      assert Unreleased(s.drops, id);
    }
  }

  /** A released packet was released once and is nowhere any more; any other is in exactly one place. */
  lemma ReleasedExactlyOnce(states: seq<State>, steps: seq<Step>, i: nat, id: nat)
    requires IsRun(states, steps) && i < |states| && id in states[i].drops
    ensures InOnePlace(states[i], id)
  {
    hide Next, InOnePlace;
    RunKeepsInv(states, steps, i);
    OwnedIsInOnePlace(states[i], id);
  }

  /** Once the processor has stopped and every caller is back, every packet ever given is released. */
  lemma QuiescenceReleasesAll(states: seq<State>, steps: seq<Step>, i: nat, id: nat)
    requires IsRun(states, steps) && i < |states| && id in states[i].drops
    requires states[i].proc.Stopped? && states[i].threads == map[]
    ensures states[i].sender.closed && states[i].sender.queue == []
    ensures states[i].drops[id] == 1
  {
    hide Next;
    RunKeepsInv(states, steps, i);
    assert !SomeClosing(states[i]) && !SomeDraining(states[i]);
    ReleasedExactlyOnce(states, steps, i, id);
  }

  /** The channel never holds more than its capacity, so a push that is not refused cannot block. */
  lemma QueueIsBounded(states: seq<State>, steps: seq<Step>, i: nat)
    requires IsRun(states, steps) && i < |states|
    ensures |states[i].sender.queue| <= CAPACITY
  {
    hide Next;
    RunKeepsInv(states, steps, i);
  }

  lemma ClosedAdmitsNothing(s: State, step: Step, s': State)
    requires Next(s, step, s') && Inv(s) && s.sender.closed
    ensures s'.sender.closed && s'.admitted == s.admitted && (s.drained ==> s'.drained)
  {
    hide Ownership, Ordered, Expiry, Destinations;
  }

  /** Nothing is admitted after a close. */
  lemma {:induction false} ClosedStays(states: seq<State>, steps: seq<Step>, i: nat, j: nat)
    requires IsRun(states, steps) && i <= j < |states|
    requires states[i].sender.closed
    ensures states[j].sender.closed && states[j].admitted == states[i].admitted
    ensures states[i].drained ==> states[j].drained
    decreases j - i
  {
    hide Next, Inv;
    if i < j {
      RunKeepsInv(states, steps, i);
      ClosedAdmitsNothing(states[i], steps[i], states[i + 1]);
      ClosedStays(states, steps, i + 1, j);
    }
  }

  /** After a drain has found the channel empty it stays empty for ever. */
  lemma DrainedStaysEmpty(states: seq<State>, steps: seq<Step>, i: nat, j: nat)
    requires IsRun(states, steps) && i <= j < |states| && states[i].drained
    ensures states[j].sender.queue == [] && states[j].sender.closed
    ensures states[j].admitted == states[i].admitted
  {
    hide Next;
    RunKeepsInv(states, steps, i);
    RunKeepsInv(states, steps, j);
    ClosedStays(states, steps, i, j);
  }

  /** Packets are written in the order of their admission. */
  lemma WritesFollowAdmission(states: seq<State>, steps: seq<Step>, i: nat)
    requires IsRun(states, steps) && i < |states|
    ensures Subsequence(Written(states[i].writes), states[i].admitted)
  {
    hide Next, Subsequence;
    RunKeepsInv(states, steps, i);
    var s := states[i];
    PendingGivenUp(s.writes, Pending(s.proc), s.taken);
    SubsequenceOfLonger(Written(s.writes), s.taken, s.sender.queue);
  }

  /** Under a limit, no packet is written that had waited that long when it was last looked at. */
  lemma NoExpiredWrite(states: seq<State>, steps: seq<Step>, i: nat, k: nat)
    requires IsRun(states, steps) && i < |states| && k < |states[i].writes|
    ensures var w := states[i].writes[k];
      w.maxDelay > 0 ==> w.queued.queuedAt.Some? && w.checkedAt - w.queued.queuedAt.value < w.maxDelay
  {
    hide Next;
    RunKeepsInv(states, steps, i);
    assert InTime(states[i].writes[k]);
  }

  /** Every write for one destination text goes to one address. */
  lemma OneTargetPerOrigin(states: seq<State>, steps: seq<Step>, i: nat, j: nat, k: nat)
    requires IsRun(states, steps) && i < |states| && j < |states[i].writes| && k < |states[i].writes|
    requires states[i].writes[j].queued.packet.key == states[i].writes[k].queued.packet.key
    ensures states[i].writes[j].addr == states[i].writes[k].addr
  {
    hide Next;
    RunKeepsInv(states, steps, i);
    var w := states[i].writes;
    assert MapsTo(states[i], w[j].queued.packet.key, w[j].addr) && MapsTo(states[i], w[k].queued.packet.key, w[k].addr);
  }

  lemma CallerKeepsMappings(s: State, t: Tid, step: CallerStep, s': State)
    requires NextCaller(s, t, step, s')
    ensures s'.sender.originToTarget == s.sender.originToTarget && s'.sender.targetToOrigin == s.sender.targetToOrigin
  {
  }

  lemma ProcessExtendsMappings(s: State, step: ProcessStep, s': State)
    requires NextProcess(s, step, s')
    ensures Extends(s.sender.originToTarget, s'.sender.originToTarget)
    ensures ExtendsBack(s.sender.targetToOrigin, s'.sender.targetToOrigin)
  {
    assert || step.Dialed?
           || step.Mapped?
           || (&& s'.sender.originToTarget == s.sender.originToTarget
               && s'.sender.targetToOrigin == s.sender.targetToOrigin);
  }

  /** A mapping, once made, is never changed: replies keep being restored to the same address. */
  lemma {:induction false} MappingsAreStable(states: seq<State>, steps: seq<Step>, i: nat, j: nat)
    requires IsRun(states, steps) && i <= j < |states|
    ensures Extends(states[i].sender.originToTarget, states[j].sender.originToTarget)
    ensures forall a :: Some(a) in states[i].sender.targetToOrigin ==>
      RestoreReadFrom(states[j].sender, a) == RestoreReadFrom(states[i].sender, a)
    ensures ExtendsBack(states[i].sender.targetToOrigin, states[j].sender.targetToOrigin)
    decreases j - i
  {
    hide NextCaller, NextProcess;
    if i < j {
      MappingsAreStable(states, steps, i + 1, j);
      match steps[i]
      case Caller(t, caller) => CallerKeepsMappings(states[i], t, caller, states[i + 1]);
      case Process(process) => ProcessExtendsMappings(states[i], process, states[i + 1]);
    }
  }

  // ---- Replies ----

  /** The call of `AddMapping` in a step: the origin and the target it is given. */
  function CallAt(s: State, step: Step): Option<(Option<Addr>, Option<Addr>)> {
    match step
    case Process(Dialed(_, origin, target, _)) => Some((origin, target))
    case Process(Mapped(resolved)) =>
      if s.proc.Mapping? && resolved.Some? && s.proc.queued.packet.key !in s.sender.originToTarget
      then Some((s.proc.queued.packet.origin, resolved)) else None
    case _ => None
  }

  /** The step maps the valid origin `o` to the target `a`. */
  predicate Binds(s: State, step: Step, a: Addr, o: Addr) {
    CallAt(s, step) == Some((Some(o), Some(a)))
  }

  predicate BindsSome(s: State, step: Step, a: Addr) {
    CallAt(s, step).Some? && CallAt(s, step).value.0.Some? && CallAt(s, step).value.1 == Some(a)
  }

  predicate RestoresTo(s: State, a: Addr, o: Addr) {
    Some(a) in s.sender.targetToOrigin && s.sender.targetToOrigin[Some(a)] == o
  }

  lemma ProcessBinds(s: State, step: ProcessStep, s': State, a: Addr, o: Addr)
    requires NextProcess(s, step, s')
    ensures RestoresTo(s', a, o) <==>
      RestoresTo(s, a, o) || (Some(a) !in s.sender.targetToOrigin && Binds(s, Process(step), a, o))
    ensures Some(a) in s'.sender.targetToOrigin <==>
      Some(a) in s.sender.targetToOrigin || BindsSome(s, Process(step), a)
  {
    if !step.Dialed? && !step.Mapped? {
      assert s'.sender.targetToOrigin == s.sender.targetToOrigin;
    }
  }

  lemma StepBinds(s: State, step: Step, s': State, a: Addr, o: Addr)
    requires Next(s, step, s')
    ensures RestoresTo(s', a, o) <==>
      RestoresTo(s, a, o) || (Some(a) !in s.sender.targetToOrigin && Binds(s, step, a, o))
    ensures Some(a) in s'.sender.targetToOrigin <==> Some(a) in s.sender.targetToOrigin || BindsSome(s, step, a)
  {
    hide NextCaller, NextProcess;
    match step
    case Caller(t, caller) => CallerKeepsMappings(s, t, caller, s');
    case Process(process) => ProcessBinds(s, process, s', a, o);
  }

  /** Nothing was mapped to `a` before step `i`. */
  predicate Unbound(states: seq<State>, steps: seq<Step>, i: nat, a: Addr)
    requires |states| == |steps| + 1 && i < |states|
  {
    forall k :: 0 <= k < i ==> !BindsSome(states[k], steps[k], a)
  }

  /** Before step `i`, the first valid origin mapped to `a` was `o`. */
  predicate FirstBound(states: seq<State>, steps: seq<Step>, i: nat, a: Addr, o: Addr)
    requires |states| == |steps| + 1 && i < |states|
  {
    exists k :: 0 <= k < i && Binds(states[k], steps[k], a, o) && Unbound(states, steps, k, a)
  }

  lemma {:induction false} UnboundIsUnknown(states: seq<State>, steps: seq<Step>, i: nat, a: Addr)
    requires IsRun(states, steps) && i < |states|
    ensures Some(a) !in states[i].sender.targetToOrigin <==> Unbound(states, steps, i, a)
  {
    hide Next, BindsSome;
    if i > 0 {
      UnboundIsUnknown(states, steps, i - 1, a);
      StepBinds(states[i - 1], steps[i - 1], states[i], a, a);
    }
  }

  lemma {:induction false} RestoredToFirst(states: seq<State>, steps: seq<Step>, i: nat, a: Addr, o: Addr)
    requires IsRun(states, steps) && i < |states|
    ensures RestoresTo(states[i], a, o) <==> FirstBound(states, steps, i, a, o)
  {
    hide Next, Binds, RestoresTo, Unbound;
    if i == 0 {
      NothingRestored(a, o);
    } else {
      RestoredToFirst(states, steps, i - 1, a, o);
      UnboundIsUnknown(states, steps, i - 1, a);
      StepBinds(states[i - 1], steps[i - 1], states[i], a, o);
      if FirstBound(states, steps, i, a, o) {
        var k :| 0 <= k < i && Binds(states[k], steps[k], a, o) && Unbound(states, steps, k, a);
        assert k < i - 1 ==> FirstBound(states, steps, i - 1, a, o);
      }
    }
  }

  lemma NothingRestored(a: Addr, o: Addr)
    ensures !RestoresTo(INITIAL, a, o)
  {
  }

  /**
   Over every run, a reply from a target is restored to the first valid origin that was mapped to
   it, whatever was mapped to it later, and keeps its own address if there is none.
   */
  lemma RepliesGoToFirstOrigin(states: seq<State>, steps: seq<Step>, i: nat, a: Addr, o: Addr)
    requires IsRun(states, steps) && i < |states|
    ensures FirstBound(states, steps, i, a, o) ==> RestoreReadFrom(states[i].sender, a) == o
    ensures RestoreReadFrom(states[i].sender, a) == o ==>
      FirstBound(states, steps, i, a, o) || (Unbound(states, steps, i, a) && o == a)
    ensures Unbound(states, steps, i, a) ==> RestoreReadFrom(states[i].sender, a) == a
  {
    hide Next, Unbound, FirstBound;
    RestoredToFirst(states, steps, i, a, o);
    UnboundIsUnknown(states, steps, i, a);
  }
}
