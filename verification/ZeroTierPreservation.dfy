/** Every step of the ZeroTier transition system meets its obligations. */
module ZeroTierPreservation {
  import opened Options
  import opened ZeroTierState
  import opened ZeroTierSteps
  import opened ZeroTierInvariant
  import opened ZeroTierInduction

  /** A goroutine with `operationMu` goes on to a point where it owns the same resources. */
  lemma MoveObliged(c: Params, s: State, t: Tid, at: OpPc, s': State)
    requires Local(c, s, t) && InOp(s, t) && s' == Goto(s, t, Op(at))
    requires OpOk(c, s.sh, s.world, at) && DeferOk(Op(at), s.threads[t].deferred)
    requires OwnedOp(at) == OwnedOp(s.threads[t].pc.op)
    requires LinkInFlight(Op(at)) == LinkInFlight(s.threads[t].pc)
    ensures Obliged(c, s, s', t, t, {}, {})
  {
  }

  /** Only goroutine `t` moves, and it keeps its locks and its deferred call. */
  lemma SameShape(s: State, s': State, t: Tid, th: Thread)
    requires t in s.threads && s'.threads == s.threads[t := th] && s'.op == s.op && s'.readers == s.readers
    requires th.deferred == s.threads[t].deferred && s'.sh.retrying == s.sh.retrying
    requires th.pc.Op? == s.threads[t].pc.Op? == (s.op == Some(t))
    requires th.pc.Read? == s.threads[t].pc.Read? == (t in s.readers)
    ensures OthersStay(s, s', t, t) && LocksObliged(s, s', t, t) && RetryObliged(s, s', t, t)
  {
  }

  /** No resource moves. */
  lemma NothingMoves(s: State, s': State, t: Tid)
    requires s'.world.closes == s.world.closes && Published(s'.sh) == Published(s.sh) && OwnedBy(s', t) == OwnedBy(s, t)
    requires OwnedBy(s, t) !! Published(s.sh)
    ensures ResourcesObliged(s, s', t, t, {}, {})
  {
  }

  /** Goroutine `t` closes one resource it owns. */
  lemma OneCloses(s: State, s': State, t: Tid, r: Resource)
    requires s'.world == CloseResource(s.world, r) && Published(s'.sh) == Published(s.sh)
    requires r in OwnedBy(s, t) && OwnedBy(s', t) == OwnedBy(s, t) - {r}
    requires OwnedBy(s, t) !! Published(s.sh)
    ensures ResourcesObliged(s, s', t, t, {}, {r})
  {
  }

  /** Resources pass between goroutine `t` and the published fields. */
  lemma ResourcesPass(s: State, s': State, t: Tid)
    requires s'.world.closes == s.world.closes
    requires OwnedBy(s', t) + Published(s'.sh) == OwnedBy(s, t) + Published(s.sh)
    requires OwnedBy(s', t) !! Published(s'.sh)
    ensures ResourcesObliged(s, s', t, t, {}, {})
  {
  }

  lemma InvalidateFields(c: Params, sh: Shared, w: World, source: Option<RuntimeId>, err: Option<Error>)
    requires SharedOk(c, sh, w)
    ensures var sh' := InvalidateNetwork(sh, source, err, false);
            && Rely(sh, w, sh', w) && Quiet(sh, w, sh', w) && SharedOk(c, sh', w)
            && (sh'.device.None? || sh' == sh) && sh'.retrying == sh.retrying && sh'.ctxDone == sh.ctxDone
  {
  }

  lemma FailureFields(c: Params, sh: Shared, w: World, rt: Option<RuntimeId>, cfg: Config, have: bool, generation: nat,
                      err: Error, retry: bool)
    requires SharedOk(c, sh, w)
    ensures var sh' := RecordFailure(sh, rt, cfg, have, generation, err, retry);
            && Rely(sh, w, sh', w) && Quiet(sh, w, sh', w) && SharedOk(c, sh', w)
            && sh'.device == sh.device && sh'.retrying == sh.retrying
  {
  }

  lemma SpawnObliged(c: Params, s: State, t: Tid, at: FreePc, s': State)
    requires Local(c, s, t) && Fresh(s, t) && IsEntry(at) && s' == Begin(s, t, at)
    ensures Obliged(c, s, s', t, t, {}, {})
  {
  }

  lemma DeliverObliged(c: Params, s: State, source: RuntimeId, cfg: Config, t: Tid, s': State)
    requires Local(c, s, t) && NextDeliver(c, s, source, cfg, t, s')
    ensures Obliged(c, s, s', t, t, {}, {})
  {
  }

  lemma TokenSentObliged(c: Params, s: State, t: Tid, s': State)
    requires Local(c, s, t) && NextTokenSent(s, t, s')
    ensures Obliged(c, s, s', t, t, {}, {})
  {
  }

  lemma ReceiveObliged(c: Params, s: State, t: Tid, s': State)
    requires Local(c, s, t) && NextReceive(s, t, s')
    ensures Obliged(c, s, s', t, t, {}, {})
  {
  }

  lemma WorkerSnapObliged(c: Params, s: State, t: Tid, s': State)
    requires Local(c, s, t) && NextWorkerSnap(s, t, s')
    ensures Obliged(c, s, s', t, t, {}, {})
  {
  }

  lemma NetworkInvalidObliged(c: Params, s: State, source: RuntimeId, err: Option<Error>, u: Tid, s': State)
    requires Local(c, s, u) && NextNetworkInvalid(s, source, err, u, s')
    ensures Obliged(c, s, s', u, u, {}, {})
  {
    InvalidateFields(c, s.sh, s.world, Some(source), err);
    ResourcesPass(s, s', u);
  }

  lemma DeviceFailedObliged(c: Params, s: State, dev: DeviceId, err: Error, u: Tid, s': State)
    requires Local(c, s, u) && NextDeviceFailed(s, dev, err, u, s')
    ensures Obliged(c, s, s', u, u, {}, {})
  {
  }

  lemma CloserDoneObliged(c: Params, s: State, t: Tid, s': State)
    requires Local(c, s, t) && NextCloserDone(s, t, s')
    ensures Obliged(c, s, s', t, t, {}, {Device(s.threads[t].pc.free.dev)})
  {
    OneCloses(s, s', t, Device(s.threads[t].pc.free.dev));
  }

  lemma StartEnterObliged(c: Params, s: State, t: Tid, now: int, s': State)
    requires Local(c, s, t) && NextStartEnter(s, t, now, s')
    ensures Obliged(c, s, s', t, t, {}, {})
  {
    NothingMoves(s, s', t);
  }

  lemma BuiltObliged(c: Params, s: State, t: Tid, ok: bool, rt: RuntimeId, s': State)
    requires Local(c, s, t) && NextBuilt(s, t, ok, rt, s')
    ensures Obliged(c, s, s', t, t, if ok then {Runtime(rt)} else {}, {})
  {
  }

  lemma JoinedObliged(c: Params, s: State, t: Tid, ok: bool, s': State)
    requires Local(c, s, t) && NextJoined(s, t, ok, s')
    ensures Obliged(c, s, s', t, t, {}, {})
  {
    ResourcesPass(s, s', t);
  }

  lemma StartClosedObliged(c: Params, s: State, t: Tid, s': State)
    requires Local(c, s, t) && NextStartClosed(s, t, s')
    ensures Obliged(c, s, s', t, t, {}, {Runtime(s.threads[t].pc.op.rt)})
  {
    OneCloses(s, s', t, Runtime(s.threads[t].pc.op.rt));
    SameShape(s, s', t, s'.threads[t]);
  }

  lemma StartReturnedObliged(c: Params, s: State, t: Tid, err: Error, s': State)
    requires Local(c, s, t) && NextStartReturned(s, t, err, s')
    ensures Obliged(c, s, s', t, t, {}, {})
  {
  }

  lemma RetryBegunObliged(c: Params, s: State, t: Tid, s': State)
    requires Local(c, s, t) && NextRetryBegun(s, t, s')
    ensures Obliged(c, s, s', t, t, {}, {})
  {
    NothingMoves(s, s', t);
  }

  lemma FailureRecordedObliged(c: Params, s: State, t: Tid, s': State)
    requires Local(c, s, t) && NextFailureRecorded(s, t, s')
    ensures Obliged(c, s, s', t, t, {}, {})
  {
    var o := s.threads[t].pc.free.origin;
    FailureFields(c, s.sh, s.world, o.rt, o.cfg, true, o.generation, s.threads[t].pc.free.err, true);
    NothingMoves(s, s', t);
  }

  lemma RefreshedObliged(c: Params, s: State, t: Tid, ok: bool, err: Error, s': State)
    requires Local(c, s, t) && NextRefreshed(s, t, ok, err, s')
    ensures Obliged(c, s, s', t, t, {}, {})
  {
  }

  lemma RefreshFailureRecordedObliged(c: Params, s: State, t: Tid, s': State)
    requires Local(c, s, t) && NextRefreshFailureRecorded(s, t, s')
    ensures Obliged(c, s, s', t, t, {}, {})
  {
    var o := s.threads[t].pc.free.origin;
    FailureFields(c, s.sh, s.world, o.rt, o.cfg, o.have, o.generation, s.threads[t].pc.free.err, s.sh.retryLatest);
    NothingMoves(s, s', t);
  }

  lemma RetryEndedObliged(c: Params, s: State, t: Tid, s': State)
    requires Local(c, s, t) && NextRetryEnded(s, t, s')
    ensures Obliged(c, s, s', t, t, {}, {})
  {
  }

  lemma LoopedObliged(c: Params, s: State, t: Tid, s': State)
    requires Local(c, s, t) && NextLooped(s, t, s')
    ensures Obliged(c, s, s', t, t, {}, {})
  {
  }

  lemma WokenObliged(c: Params, s: State, t: Tid, gaveUp: bool, s': State)
    requires Local(c, s, t) && NextWoken(s, t, gaveUp, s')
    ensures Obliged(c, s, s', t, t, {}, {})
  {
  }

  lemma ApplyEnterObliged(c: Params, s: State, t: Tid, s': State)
    requires Local(c, s, t) && NextApplyEnter(s, t, s')
    ensures Obliged(c, s, s', t, t, {}, {})
  {
  }

  lemma ApplySnappedObliged(c: Params, s: State, t: Tid, resolver: bool, s': State)
    requires Local(c, s, t) && NextApplySnapped(s, t, resolver, s')
    ensures Obliged(c, s, s', t, t, {}, {})
  {
    MoveObliged(c, s, t, s'.threads[t].pc.op, s');
  }

  lemma DeviceCreatedObliged(c: Params, s: State, t: Tid, dev: DeviceId, at: OpPc, s': State)
    requires Local(c, s, t) && InOp(s, t) && s.threads[t].pc.op.ApplyPrepare?
    requires Device(dev) !in s.world.closes && dev !in s.world.stacks
    requires var job := s.threads[t].pc.op.job;
             && s' == Goto(s.(world := CreateDevice(s.world, dev, StackFor(c, job.rt, job.origin.cfg))), t, Op(at))
             && (at == ApplyStarted(job, dev) || (at.ApplyClose? && at.dev == dev))
    ensures Obliged(c, s, s', t, t, {Device(dev)}, {})
  {
    SameShape(s, s', t, s'.threads[t]);
  }

  lemma PreparedObliged(c: Params, s: State, t: Tid, how: Preparation, dev: DeviceId, s': State)
    requires Local(c, s, t) && NextPrepared(c, s, t, how, dev, s')
    ensures Obliged(c, s, s', t, t, if s'.world == s.world then {} else {Device(dev)}, {})
  {
    if s'.world == s.world {
      MoveObliged(c, s, t, s'.threads[t].pc.op, s');
    } else {
      DeviceCreatedObliged(c, s, t, dev, s'.threads[t].pc.op, s');
    }
  }

  lemma StartedCheckedObliged(c: Params, s: State, t: Tid, s': State)
    requires Local(c, s, t) && NextStartedChecked(s, t, s')
    ensures Obliged(c, s, s', t, t, {}, {})
  {
    SameShape(s, s', t, s'.threads[t]);
  }

  lemma RecheckedObliged(c: Params, s: State, t: Tid, s': State)
    requires Local(c, s, t) && NextRechecked(s, t, s')
    ensures Obliged(c, s, s', t, t, {}, {})
  {
    MoveObliged(c, s, t, s'.threads[t].pc.op, s');
  }

  lemma LinkChangedObliged(c: Params, s: State, t: Tid, s': State)
    requires Local(c, s, t) && NextLinkApplied(c, s, t, true, s')
    ensures Obliged(c, s, s', t, t, {}, {})
  {
    SameShape(s, s', t, s'.threads[t]);
  }

  lemma LinkAppliedObliged(c: Params, s: State, t: Tid, ok: bool, s': State)
    requires Local(c, s, t) && NextLinkApplied(c, s, t, ok, s')
    ensures Obliged(c, s, s', t, t, {}, {})
  {
    if ok {
      LinkChangedObliged(c, s, t, s');
    } else {
      MoveObliged(c, s, t, s'.threads[t].pc.op, s');
    }
  }

  lemma CommittedFields(c: Params, s: State, t: Tid, s': State)
    requires Local(c, s, t) && NextCommitDecided(s, t, s') && JobCurrent(s.sh, s.threads[t].pc.op.job)
    ensures FieldsObliged(c, s, s', t, t)
  {
    hide OwnedBy, Published;
  }

  lemma CommittedObliged(c: Params, s: State, t: Tid, s': State)
    requires Local(c, s, t) && NextCommitDecided(s, t, s') && JobCurrent(s.sh, s.threads[t].pc.op.job)
    ensures Obliged(c, s, s', t, t, {}, {})
  {
    CommittedFields(c, s, t, s');
    hide FieldsObliged, SharedOk, LinkOk, LocksObliged, RetryObliged, OthersStay, ResourcesObliged;
    SameShape(s, s', t, s'.threads[t]);
    ResourcesPass(s, s', t);
  }

  lemma CommitDecidedObliged(c: Params, s: State, t: Tid, s': State)
    requires Local(c, s, t) && NextCommitDecided(s, t, s')
    ensures Obliged(c, s, s', t, t, {}, {})
  {
    if JobCurrent(s.sh, s.threads[t].pc.op.job) {
      CommittedObliged(c, s, t, s');
    } else {
      MoveObliged(c, s, t, s'.threads[t].pc.op, s');
    }
  }

  lemma RolledBackObliged(c: Params, s: State, t: Tid, ok: bool, s': State)
    requires Local(c, s, t) && NextRolledBack(c, s, t, ok, s')
    ensures Obliged(c, s, s', t, t, {}, {})
  {
    SameShape(s, s', t, s'.threads[t]);
    NothingMoves(s, s', t);
  }

  lemma ApplyClosedObliged(c: Params, s: State, t: Tid, s': State)
    requires Local(c, s, t) && NextApplyClosed(s, t, s')
    ensures Obliged(c, s, s', t, t, {}, {Device(s.threads[t].pc.op.dev)})
  {
    OneCloses(s, s', t, Device(s.threads[t].pc.op.dev));
    SameShape(s, s', t, s'.threads[t]);
  }

  lemma ApplyReturnedObliged(c: Params, s: State, t: Tid, s': State)
    requires Local(c, s, t) && NextApplyReturned(s, t, s')
    ensures Obliged(c, s, s', t, t, {}, {})
  {
  }

  lemma RecoverEnterObliged(c: Params, s: State, t: Tid, s': State)
    requires Local(c, s, t) && NextRecoverEnter(s, t, s')
    ensures Obliged(c, s, s', t, t, {}, {})
  {
  }

  lemma CollidedObliged(c: Params, s: State, t: Tid, now: int, s': State)
    requires Local(c, s, t) && InOp(s, t) && s.threads[t].pc.op.RecoverDetach?
    requires s.sh.runtime.Some?
    requires s' == Goto(s.(sh := DetachCollided(c, s.sh, now)), t, Op(RecoverClose(Published(s.sh))))
    ensures Obliged(c, s, s', t, t, {}, {})
  {
    SameShape(s, s', t, s'.threads[t]);
    ResourcesPass(s, s', t);
  }

  lemma RecoverDetachedObliged(c: Params, s: State, t: Tid, addressMatches: bool, now: int, s': State)
    requires Local(c, s, t) && NextRecoverDetached(c, s, t, addressMatches, now, s')
    ensures Obliged(c, s, s', t, t, {}, {})
  {
    if s.sh.runtime != Some(s.threads[t].pc.op.source) || !addressMatches {
      MoveObliged(c, s, t, RecoverRelease, s');
    } else {
      CollidedObliged(c, s, t, now, s');
    }
  }

  lemma RecoverClosedOneObliged(c: Params, s: State, t: Tid, r: Resource, s': State)
    requires Local(c, s, t) && NextRecoverClosedOne(s, t, r, s')
    ensures Obliged(c, s, s', t, t, {}, {r})
  {
    OneCloses(s, s', t, r);
    SameShape(s, s', t, s'.threads[t]);
  }

  lemma RecoverClosedObliged(c: Params, s: State, t: Tid, now: int, s': State)
    requires Local(c, s, t) && NextRecoverClosed(c, s, t, now, s')
    ensures Obliged(c, s, s', t, t, {}, {})
  {
    SameShape(s, s', t, s'.threads[t]);
    NothingMoves(s, s', t);
  }

  /** A restart that failed leaves no device, so there is nothing to hand to a closing goroutine. */
  lemma RecoverInvalidatedObliged(c: Params, s: State, t: Tid, u: Tid, s': State)
    requires Local(c, s, t) && NextRecoverInvalidated(s, t, u, s')
    ensures Obliged(c, s, s', t, t, {}, {})
  {
    InvalidateFields(c, s.sh, s.world, None, Some(s.threads[t].pc.op.err));
    SameShape(s, s', t, s'.threads[t]);
    ResourcesPass(s, s', t);
  }

  lemma RecoverReleasedObliged(c: Params, s: State, t: Tid, s': State)
    requires Local(c, s, t) && NextRecoverReleased(s, t, s')
    ensures Obliged(c, s, s', t, t, {}, {})
  {
  }

  lemma CancelledObliged(c: Params, s: State, t: Tid, s': State)
    requires Local(c, s, t) && NextCancelled(s, t, s')
    ensures Obliged(c, s, s', t, t, {}, {})
  {
    SameShape(s, s', t, s'.threads[t]);
  }

  lemma CloseEnteredObliged(c: Params, s: State, t: Tid, s': State)
    requires Local(c, s, t) && NextCloseEntered(s, t, s')
    ensures Obliged(c, s, s', t, t, {}, {})
  {
    NothingMoves(s, s', t);
  }

  lemma CloseDetachedObliged(c: Params, s: State, t: Tid, s': State)
    requires Local(c, s, t) && NextCloseDetached(s, t, s')
    ensures Obliged(c, s, s', t, t, {}, {})
  {
    ResourcesPass(s, s', t);
    SameShape(s, s', t, s'.threads[t]);
  }

  lemma CloseReleasedObliged(c: Params, s: State, t: Tid, s': State)
    requires Local(c, s, t) && NextCloseReleased(s, t, s')
    ensures Obliged(c, s, s', t, t, {}, {})
  {
  }

  lemma ClosedOneObliged(c: Params, s: State, t: Tid, r: Resource, s': State)
    requires Local(c, s, t) && NextClosedOne(s, t, r, s')
    ensures Obliged(c, s, s', t, t, {}, {r})
  {
    OneCloses(s, s', t, r);
    SameShape(s, s', t, s'.threads[t]);
  }

  lemma CloseDoneObliged(c: Params, s: State, t: Tid, s': State)
    requires Local(c, s, t) && NextCloseDone(s, t, s')
    ensures Obliged(c, s, s', t, t, {}, {})
  {
  }

  lemma StackEnteredObliged(c: Params, s: State, t: Tid, s': State)
    requires Local(c, s, t) && NextStackEntered(s, t, s')
    ensures Obliged(c, s, s', t, t, {}, {})
  {
  }

  lemma StackSnappedObliged(c: Params, s: State, t: Tid, s': State)
    requires Local(c, s, t) && NextStackSnapped(s, t, s')
    ensures Obliged(c, s, s', t, t, {}, {})
  {
  }

  lemma StackValidatedObliged(c: Params, s: State, t: Tid, s': State)
    requires Local(c, s, t) && NextStackValidated(s, t, s')
    ensures Obliged(c, s, s', t, t, {}, {})
  {
  }

  lemma StackRecheckedObliged(c: Params, s: State, t: Tid, s': State)
    requires Local(c, s, t) && NextStackRechecked(s, t, s')
    ensures Obliged(c, s, s', t, t, {}, {})
  {
  }

  lemma StackReleasedObliged(c: Params, s: State, t: Tid, s': State)
    requires Local(c, s, t) && NextStackReleased(s, t, s')
    ensures Obliged(c, s, s', t, t, {}, {})
  {
  }

  /** The goroutine that takes a step, or that a callback starts. */
  function Actor(step: Step): Tid {
    match step
    case Callback(of) => (match of
      case NetworkInvalid(_, _, u) => u
      case DeviceFailed(_, _, u) => u
      case _ => of.t)
    case Start(of) => of.t
    case Ensure(of) => of.t
    case Apply(of) => of.t
    case Recover(of) => of.t
    case Close(of) => of.t
    case Stack(of) => of.t
  }

  lemma CallbackObliged(c: Params, s: State, step: CallbackStep, s': State)
    returns (u: Tid, created: set<Resource>, closed: set<Resource>)
    requires Local(c, s, Actor(Callback(step))) && NextCallback(c, s, step, s')
    ensures u == Actor(Callback(step)) && Obliged(c, s, s', Actor(Callback(step)), u, created, closed)
  {
    hide Local; hide Obliged;
    u, created, closed := Actor(Callback(step)), {}, {};
    match step
    case Spawn(t, at) => SpawnObliged(c, s, t, at, s');
    case Deliver(source, cfg, t) => DeliverObliged(c, s, source, cfg, t, s');
    case TokenSent(t) => TokenSentObliged(c, s, t, s');
    case Receive(t) => ReceiveObliged(c, s, t, s');
    case WorkerSnap(t) => WorkerSnapObliged(c, s, t, s');
    case NetworkInvalid(source, err, w) => NetworkInvalidObliged(c, s, source, err, w, s');
    case DeviceFailed(dev, err, w) => DeviceFailedObliged(c, s, dev, err, w, s');
    case CloserDone(t) =>
      closed := {Device(s.threads[t].pc.free.dev)};
      CloserDoneObliged(c, s, t, s');
  }

  lemma StartObliged(c: Params, s: State, step: StartStep, s': State)
    returns (u: Tid, created: set<Resource>, closed: set<Resource>)
    requires Local(c, s, Actor(Start(step))) && NextStart(s, step, s')
    ensures u == Actor(Start(step)) && Obliged(c, s, s', Actor(Start(step)), u, created, closed)
  {
    hide Local; hide Obliged;
    u, created, closed := Actor(Start(step)), {}, {};
    match step
    case StartEnter(t, now) => StartEnterObliged(c, s, t, now, s');
    case Built(t, ok, rt) =>
      created := if ok then {Runtime(rt)} else {};
      BuiltObliged(c, s, t, ok, rt, s');
    case Joined(t, ok) => JoinedObliged(c, s, t, ok, s');
    case StartClosed(t) =>
      closed := {Runtime(s.threads[t].pc.op.rt)};
      StartClosedObliged(c, s, t, s');
    case StartReturned(t, err) => StartReturnedObliged(c, s, t, err, s');
  }

  lemma EnsureObliged(c: Params, s: State, step: EnsureStep, s': State)
    returns (u: Tid, created: set<Resource>, closed: set<Resource>)
    requires Local(c, s, Actor(Ensure(step))) && NextEnsure(s, step, s')
    ensures u == Actor(Ensure(step)) && Obliged(c, s, s', Actor(Ensure(step)), u, created, closed)
  {
    hide Local; hide Obliged;
    u, created, closed := Actor(Ensure(step)), {}, {};
    match step
    case RetryBegun(t) => RetryBegunObliged(c, s, t, s');
    case FailureRecorded(t) => FailureRecordedObliged(c, s, t, s');
    case Refreshed(t, ok, err) => RefreshedObliged(c, s, t, ok, err, s');
    case RefreshFailureRecorded(t) => RefreshFailureRecordedObliged(c, s, t, s');
    case RetryEnded(t) => RetryEndedObliged(c, s, t, s');
    case Looped(t) => LoopedObliged(c, s, t, s');
    case Woken(t, gaveUp) => WokenObliged(c, s, t, gaveUp, s');
  }

  lemma ApplyObliged(c: Params, s: State, step: ApplyStep, s': State)
    returns (u: Tid, created: set<Resource>, closed: set<Resource>)
    requires Local(c, s, Actor(Apply(step))) && NextApply(c, s, step, s')
    ensures u == Actor(Apply(step)) && Obliged(c, s, s', Actor(Apply(step)), u, created, closed)
  {
    hide Local; hide Obliged;
    u, created, closed := Actor(Apply(step)), {}, {};
    match step
    case ApplyEnter(t) => ApplyEnterObliged(c, s, t, s');
    case ApplySnapped(t, resolver) => ApplySnappedObliged(c, s, t, resolver, s');
    case Prepared(t, how, dev) =>
      created := if s'.world == s.world then {} else {Device(dev)};
      PreparedObliged(c, s, t, how, dev, s');
    case StartedChecked(t) => StartedCheckedObliged(c, s, t, s');
    case Rechecked(t) => RecheckedObliged(c, s, t, s');
    case LinkApplied(t, ok) => LinkAppliedObliged(c, s, t, ok, s');
    case CommitDecided(t) => CommitDecidedObliged(c, s, t, s');
    case RolledBack(t, ok) => RolledBackObliged(c, s, t, ok, s');
    case ApplyClosed(t) =>
      closed := {Device(s.threads[t].pc.op.dev)};
      ApplyClosedObliged(c, s, t, s');
    case ApplyReturned(t) => ApplyReturnedObliged(c, s, t, s');
  }

  lemma RecoverObliged(c: Params, s: State, step: RecoverStep, s': State)
    returns (u: Tid, created: set<Resource>, closed: set<Resource>)
    requires Local(c, s, Actor(Recover(step))) && NextRecover(c, s, step, s')
    ensures u == Actor(Recover(step)) && Obliged(c, s, s', Actor(Recover(step)), u, created, closed)
  {
    hide Local; hide Obliged;
    u, created, closed := Actor(Recover(step)), {}, {};
    match step
    case RecoverEnter(t) => RecoverEnterObliged(c, s, t, s');
    case RecoverDetached(t, addressMatches, now) => RecoverDetachedObliged(c, s, t, addressMatches, now, s');
    case RecoverClosedOne(t, r) =>
      closed := {r};
      RecoverClosedOneObliged(c, s, t, r, s');
    case RecoverClosed(t, now) => RecoverClosedObliged(c, s, t, now, s');
    case RecoverInvalidated(t, w) => RecoverInvalidatedObliged(c, s, t, w, s');
    case RecoverReleased(t) => RecoverReleasedObliged(c, s, t, s');
  }

  lemma CloseObliged(c: Params, s: State, step: CloseStep, s': State)
    returns (u: Tid, created: set<Resource>, closed: set<Resource>)
    requires Local(c, s, Actor(Close(step))) && NextClose(s, step, s')
    ensures u == Actor(Close(step)) && Obliged(c, s, s', Actor(Close(step)), u, created, closed)
  {
    hide Local; hide Obliged;
    u, created, closed := Actor(Close(step)), {}, {};
    match step
    case Cancelled(t) => CancelledObliged(c, s, t, s');
    case CloseEntered(t) => CloseEnteredObliged(c, s, t, s');
    case CloseDetached(t) => CloseDetachedObliged(c, s, t, s');
    case CloseReleased(t) => CloseReleasedObliged(c, s, t, s');
    case ClosedOne(t, r) =>
      closed := {r};
      ClosedOneObliged(c, s, t, r, s');
    case CloseDone(t) => CloseDoneObliged(c, s, t, s');
  }

  lemma StackObliged(c: Params, s: State, step: StackStep, s': State)
    returns (u: Tid, created: set<Resource>, closed: set<Resource>)
    requires Local(c, s, Actor(Stack(step))) && NextStack(s, step, s')
    ensures u == Actor(Stack(step)) && Obliged(c, s, s', Actor(Stack(step)), u, created, closed)
  {
    hide Local; hide Obliged;
    u, created, closed := Actor(Stack(step)), {}, {};
    match step
    case StackEntered(t) => StackEnteredObliged(c, s, t, s');
    case StackSnapped(t) => StackSnappedObliged(c, s, t, s');
    case StackValidated(t) => StackValidatedObliged(c, s, t, s');
    case StackRechecked(t) => StackRecheckedObliged(c, s, t, s');
    case StackReleased(t) => StackReleasedObliged(c, s, t, s');
  }

  lemma StepObliged(c: Params, s: State, step: Step, s': State)
    returns (u: Tid, created: set<Resource>, closed: set<Resource>)
    requires Inv(c, s) && Next(c, s, step, s')
    ensures u == Actor(step) && Obliged(c, s, s', Actor(step), u, created, closed)
  {
    hide Local; hide Obliged; hide Inv;
    InvIsLocal(c, s, Actor(step));
    match step {
      case Callback(of) => u, created, closed := CallbackObliged(c, s, of, s');
      case Start(of) => u, created, closed := StartObliged(c, s, of, s');
      case Ensure(of) => u, created, closed := EnsureObliged(c, s, of, s');
      case Apply(of) => u, created, closed := ApplyObliged(c, s, of, s');
      case Recover(of) => u, created, closed := RecoverObliged(c, s, of, s');
      case Close(of) => u, created, closed := CloseObliged(c, s, of, s');
      case Stack(of) => u, created, closed := StackObliged(c, s, of, s');
    }
  }

  lemma StepKeepsInv(c: Params, s: State, step: Step, s': State)
    requires Inv(c, s) && Next(c, s, step, s')
    ensures Inv(c, s')
  {
    hide Obliged; hide Inv; hide Next;
    var u, created, closed := StepObliged(c, s, step, s');
    Induct(c, s, s', Actor(step), u, created, closed);
  }

  /** The general facts about any step: what it keeps for everybody, and what it keeps when taken without the lock. */
  lemma StepRelies(c: Params, s: State, step: Step, s': State)
    requires Inv(c, s) && Next(c, s, step, s')
    ensures Rely(s.sh, s.world, s'.sh, s'.world)
    ensures s.op == Some(Actor(step)) || LocksFree(s) || Quiet(s.sh, s.world, s'.sh, s'.world)
    ensures OthersStay(s, s', Actor(step), Actor(step))
  {
    hide Inv; hide Next;
    var u, created, closed := StepObliged(c, s, step, s');
  }
}
