/**
 The goroutines of the ZeroTier outbound as a transition system.

 A step is one stretch of code between two lock operations, or one call into the node, the IP
 link or a device.  `stateMu` never stays held across a step, so it needs no field; `operationMu`
 does.  Taking `operationMu` is merged with the reads of `ctx` and `closed` that follow it: a
 goroutine that waits for the lock loses nothing by taking it as late as possible.  Setting
 `closed` is merged with the detach that follows, because `closed` is only read under the lock.
 */
module ZeroTierSteps {
  import opened Options
  import opened ZeroTierState

  type Tid = nat

  /** Who called `startLocked`. */
  datatype Caller = FromEnsure | FromRecover

  /** The snapshot that the caller of `applyNetworkConfig` took. */
  datatype Origin = Origin(rt: Option<RuntimeId>, cfg: Config, have: bool, generation: nat)

  /** What `applyNetworkConfig` read in its first phase. */
  datatype Job = Job(origin: Origin, rt: RuntimeId, oldDevice: Option<DeviceId>, oldConfig: Config, resolver: bool)

  datatype Outcome = Applied | Stale | Failed(err: Error)

  /** Program points, with local variables, at which a goroutine holds no lock. */
  datatype FreePc =
    | EnsureStart
    | EnsureRetry
    | EnsureLoop
    | EnsureWait(ch: nat)
    | RecordingFailure(origin: Origin, err: Error)
    | RetryRefresh(origin: Origin)
    | RetryFailed(origin: Origin, err: Error)
    | RetryDone
    | SendToken
    | WorkerSnapshot
    | ApplyWait(origin: Origin)
    | RecoverWait(source: RuntimeId)
    | CloseBegin
    | CloseWait
    | CloseFinish(owned: set<Resource>)
    | Closer(dev: DeviceId)
    | StackWait

  /** Program points at which it holds `operationMu` for writing. */
  datatype OpPc =
    | StartBuild(caller: Caller)
    | StartJoin(caller: Caller, rt: RuntimeId)
    | StartCleanup(caller: Caller, rt: RuntimeId)
    | StartFailed(caller: Caller)
    | ApplySnapshot(origin: Origin)
    | ApplyPrepare(job: Job)
    | ApplyStarted(job: Job, dev: DeviceId)
    | ApplyRecheck(job: Job, dev: DeviceId, replace: bool)
    | ApplyLink(job: Job, dev: DeviceId, replace: bool)
    | ApplyCommit(job: Job, dev: DeviceId, replace: bool)
    | ApplyRollback(job: Job, dev: DeviceId, replace: bool)
    | ApplyClose(origin: Origin, dev: DeviceId, res: Outcome)
    | ApplyReturn(origin: Origin, res: Outcome)
    | RecoverDetach(source: RuntimeId)
    | RecoverClose(owned: set<Resource>)
    | RecoverInvalidate(err: Error)
    | RecoverRelease
    | CloseDetach
    | CloseRelease(owned: set<Resource>)

  /** Program points at which it holds `operationMu` for reading. */
  datatype ReadPc =
    | StackSnapshot
    | StackValidate(rt: RuntimeId, dev: DeviceId)
    | StackRecheck(rt: RuntimeId, dev: DeviceId, seen: Option<Config>)
    | StackReady(rt: RuntimeId, dev: DeviceId, seen: Option<Config>)
    | StackRelease

  datatype Pc = Free(free: FreePc) | Op(op: OpPc) | Read(read: ReadPc)

  /** A goroutine; `deferred` says that it owes the deferred reset of `networkRetrying`. */
  datatype Thread = Thread(pc: Pc, deferred: bool)

  datatype State = State(sh: Shared, world: World, op: Option<Tid>, readers: set<Tid>, configCh: bool,
                         threads: map<Tid, Thread>)

  /** The IP link may already carry a configuration that is not published. */
  predicate LinkInFlight(pc: Pc) {
    pc.Op? && (pc.op.ApplyCommit? || pc.op.ApplyRollback?)
  }

  function IfNew(dev: DeviceId, replace: bool): set<Resource> {
    if replace then {Device(dev)} else {}
  }

  function OwnedOp(pc: OpPc): set<Resource> {
    match pc
    case StartCleanup(_, rt) => {Runtime(rt)}
    case ApplyStarted(_, dev) => {Device(dev)}
    case ApplyRecheck(_, dev, replace) => IfNew(dev, replace)
    case ApplyLink(_, dev, replace) => IfNew(dev, replace)
    case ApplyCommit(_, dev, replace) => IfNew(dev, replace)
    case ApplyRollback(_, dev, replace) => IfNew(dev, replace)
    case ApplyClose(_, dev, _) => {Device(dev)}
    case RecoverClose(owned) => owned
    case CloseRelease(owned) => owned
    case _ => {}
  }

  /** The resources this goroutine is the only one left to close. */
  function Owned(pc: Pc): set<Resource> {
    match pc
    case Free(CloseFinish(owned)) => owned
    case Free(Closer(dev)) => {Device(dev)}
    case Free(_) => {}
    case Op(at) => OwnedOp(at)
    case Read(_) => {}
  }

  const INITIAL := State(INITIAL_SHARED, INITIAL_WORLD, None, {}, false, map[])

  // ----- building successor states -----

  predicate InOp(s: State, t: Tid) {
    t in s.threads && s.threads[t].pc.Op?
  }

  predicate InFree(s: State, t: Tid) {
    t in s.threads && s.threads[t].pc.Free?
  }

  predicate InRead(s: State, t: Tid) {
    t in s.threads && s.threads[t].pc.Read?
  }

  predicate AtFree(s: State, t: Tid, at: FreePc) {
    InFree(s, t) && s.threads[t].pc.free == at
  }

  predicate AtOp(s: State, t: Tid, at: OpPc) {
    InOp(s, t) && s.threads[t].pc.op == at
  }

  predicate Fresh(s: State, t: Tid) {
    t !in s.threads
  }

  predicate LocksFree(s: State) {
    s.op.None? && s.readers == {}
  }

  /** A new goroutine. */
  function Begin(s: State, t: Tid, at: FreePc): State {
    s.(threads := s.threads[t := Thread(Free(at), false)])
  }

  /** Goroutine `t` goes on at `pc`. */
  function Goto(s: State, t: Tid, pc: Pc): State
    requires t in s.threads
  {
    s.(threads := s.threads[t := s.threads[t].(pc := pc)])
  }

  function Exit(s: State, t: Tid): State {
    s.(threads := s.threads - {t})
  }

  function Acquire(s: State, t: Tid, at: OpPc): State
    requires t in s.threads
  {
    Goto(s, t, Op(at)).(op := Some(t))
  }

  /** Goroutine `t` gives `operationMu` back and goes on. */
  function Release(s: State, t: Tid, at: FreePc): State
    requires t in s.threads
  {
    Goto(s, t, Free(at)).(op := None)
  }

  function CloseResource(w: World, r: Resource): World {
    if r in w.closes then w.(closes := w.closes[r := w.closes[r] + 1]) else w
  }

  function CreateRuntime(w: World, rt: RuntimeId): World {
    w.(closes := w.closes[Runtime(rt) := 0], link := w.link - {rt}, leftOn := None)
  }

  function CreateDevice(w: World, dev: DeviceId, stack: Making): World {
    w.(closes := w.closes[Device(dev) := 0], stacks := w.stacks[dev := stack])
  }

  /** The stack device that a configuration asks for. */
  function StackFor(c: Params, rt: RuntimeId, cfg: Config): Making {
    Making(rt, cfg.addresses, EffectiveMTU(c, cfg))
  }

  /** Hands a detached device to a goroutine that closes it. */
  function SpawnCloser(s: State, detached: Option<DeviceId>, u: Tid): State {
    if detached.Some? then Begin(s, u, Closer(detached.value)) else s
  }

  /** Gives up a prepared device, if the apply created one, and returns `res`. */
  function Abandon(job: Job, dev: DeviceId, replace: bool, res: Outcome): OpPc {
    if replace then ApplyClose(job.origin, dev, res) else ApplyReturn(job.origin, res)
  }

  /** Where `retryNetwork` continues after `applyNetworkConfig`. */
  function AfterRetry(o: Origin, res: Outcome): FreePc {
    match res
    case Applied => RetryDone
    case Stale => RetryRefresh(o)
    case Failed(err) => RecordingFailure(o, err)
  }

  /** The caller of `applyNetworkConfig` continues; a worker's round ends unless there is a failure to record. */
  function AfterApply(s: State, t: Tid, o: Origin, res: Outcome): State
    requires t in s.threads
  {
    if s.threads[t].deferred || res.Failed? then Goto(s, t, Free(AfterRetry(o, res))) else Exit(s, t)
  }

  // ----- steps -----

  /** What the node, the packet pumps and callers from outside start. */
  datatype CallbackStep =
    | Spawn(t: Tid, at: FreePc)
    | Deliver(source: RuntimeId, cfg: Config, t: Tid)
    | TokenSent(t: Tid)
    | Receive(t: Tid)
    | WorkerSnap(t: Tid)
    | NetworkInvalid(source: RuntimeId, error: Option<Error>, u: Tid)
    | DeviceFailed(dev: DeviceId, err: Error, u: Tid)
    | CloserDone(t: Tid)

  /** `startLocked`. */
  datatype StartStep =
    | StartEnter(t: Tid, now: int)
    | Built(t: Tid, ok: bool, rt: RuntimeId)
    | Joined(t: Tid, ok: bool)
    | StartClosed(t: Tid)
    | StartReturned(t: Tid, err: Error)

  /** `retryNetwork` and the rest of `ensureStarted`. */
  datatype EnsureStep =
    | RetryBegun(t: Tid)
    | FailureRecorded(t: Tid)
    | Refreshed(t: Tid, ok: bool, err: Error)
    | RefreshFailureRecorded(t: Tid)
    | RetryEnded(t: Tid)
    | Looped(t: Tid)
    | Woken(t: Tid, gaveUp: bool)

  /** `applyNetworkConfig`. */
  datatype ApplyStep =
    | ApplyEnter(t: Tid)
    | ApplySnapped(t: Tid, resolver: bool)
    | Prepared(t: Tid, how: Preparation, dev: DeviceId)
    | StartedChecked(t: Tid)
    | Rechecked(t: Tid)
    | LinkApplied(t: Tid, ok: bool)
    | CommitDecided(t: Tid)
    | RolledBack(t: Tid, ok: bool)
    | ApplyClosed(t: Tid)
    | ApplyReturned(t: Tid)

  /** `recoverIdentityCollision`. */
  datatype RecoverStep =
    | RecoverEnter(t: Tid)
    | RecoverDetached(t: Tid, addressMatches: bool, now: int)
    | RecoverClosedOne(t: Tid, r: Resource)
    | RecoverClosed(t: Tid, now: int)
    | RecoverInvalidated(t: Tid, u: Tid)
    | RecoverReleased(t: Tid)

  /** `Close`. */
  datatype CloseStep =
    | Cancelled(t: Tid)
    | CloseEntered(t: Tid)
    | CloseDetached(t: Tid)
    | CloseReleased(t: Tid)
    | ClosedOne(t: Tid, r: Resource)
    | CloseDone(t: Tid)

  /** `networkStackFor`. */
  datatype StackStep =
    | StackEntered(t: Tid)
    | StackSnapped(t: Tid)
    | StackValidated(t: Tid)
    | StackRechecked(t: Tid)
    | StackReleased(t: Tid)

  datatype Step =
    | Callback(ofCallback: CallbackStep)
    | Start(ofStart: StartStep)
    | Ensure(ofEnsure: EnsureStep)
    | Apply(ofApply: ApplyStep)
    | Recover(ofRecover: RecoverStep)
    | Close(ofClose: CloseStep)
    | Stack(ofStack: StackStep)

  /** How the middle of `applyNetworkConfig` can go. */
  datatype Preparation = Ready | ResolverFailed | StackFailed | StartFailedToo

  /** Where an operation called from outside begins. */
  predicate IsEntry(at: FreePc) {
    at == EnsureStart || at.RecoverWait? || at == CloseBegin || at == StackWait
  }

  predicate Next(c: Params, s: State, step: Step, s': State) {
    match step
    case Callback(of) => NextCallback(c, s, of, s')
    case Start(of) => NextStart(s, of, s')
    case Ensure(of) => NextEnsure(s, of, s')
    case Apply(of) => NextApply(c, s, of, s')
    case Recover(of) => NextRecover(c, s, of, s')
    case Close(of) => NextClose(s, of, s')
    case Stack(of) => NextStack(s, of, s')
  }

  predicate NextCallback(c: Params, s: State, step: CallbackStep, s': State) {
    match step
    case Spawn(t, at) => Fresh(s, t) && IsEntry(at) && s' == Begin(s, t, at)
    case Deliver(source, cfg, t) => NextDeliver(c, s, source, cfg, t, s')
    case TokenSent(t) => NextTokenSent(s, t, s')
    case Receive(t) => NextReceive(s, t, s')
    case WorkerSnap(t) => NextWorkerSnap(s, t, s')
    case NetworkInvalid(source, err, u) => NextNetworkInvalid(s, source, err, u, s')
    case DeviceFailed(dev, err, u) => NextDeviceFailed(s, dev, err, u, s')
    case CloserDone(t) => NextCloserDone(s, t, s')
  }

  predicate NextStart(s: State, step: StartStep, s': State) {
    match step
    case StartEnter(t, now) => NextStartEnter(s, t, now, s')
    case Built(t, ok, rt) => NextBuilt(s, t, ok, rt, s')
    case Joined(t, ok) => NextJoined(s, t, ok, s')
    case StartClosed(t) => NextStartClosed(s, t, s')
    case StartReturned(t, err) => NextStartReturned(s, t, err, s')
  }

  predicate NextEnsure(s: State, step: EnsureStep, s': State) {
    match step
    case RetryBegun(t) => NextRetryBegun(s, t, s')
    case FailureRecorded(t) => NextFailureRecorded(s, t, s')
    case Refreshed(t, ok, err) => NextRefreshed(s, t, ok, err, s')
    case RefreshFailureRecorded(t) => NextRefreshFailureRecorded(s, t, s')
    case RetryEnded(t) => NextRetryEnded(s, t, s')
    case Looped(t) => NextLooped(s, t, s')
    case Woken(t, gaveUp) => NextWoken(s, t, gaveUp, s')
  }

  predicate NextApply(c: Params, s: State, step: ApplyStep, s': State) {
    match step
    case ApplyEnter(t) => NextApplyEnter(s, t, s')
    case ApplySnapped(t, resolver) => NextApplySnapped(s, t, resolver, s')
    case Prepared(t, how, dev) => NextPrepared(c, s, t, how, dev, s')
    case StartedChecked(t) => NextStartedChecked(s, t, s')
    case Rechecked(t) => NextRechecked(s, t, s')
    case LinkApplied(t, ok) => NextLinkApplied(c, s, t, ok, s')
    case CommitDecided(t) => NextCommitDecided(s, t, s')
    case RolledBack(t, ok) => NextRolledBack(c, s, t, ok, s')
    case ApplyClosed(t) => NextApplyClosed(s, t, s')
    case ApplyReturned(t) => NextApplyReturned(s, t, s')
  }

  predicate NextRecover(c: Params, s: State, step: RecoverStep, s': State) {
    match step
    case RecoverEnter(t) => NextRecoverEnter(s, t, s')
    case RecoverDetached(t, addressMatches, now) => NextRecoverDetached(c, s, t, addressMatches, now, s')
    case RecoverClosedOne(t, r) => NextRecoverClosedOne(s, t, r, s')
    case RecoverClosed(t, now) => NextRecoverClosed(c, s, t, now, s')
    case RecoverInvalidated(t, u) => NextRecoverInvalidated(s, t, u, s')
    case RecoverReleased(t) => NextRecoverReleased(s, t, s')
  }

  predicate NextClose(s: State, step: CloseStep, s': State) {
    match step
    case Cancelled(t) => NextCancelled(s, t, s')
    case CloseEntered(t) => NextCloseEntered(s, t, s')
    case CloseDetached(t) => NextCloseDetached(s, t, s')
    case CloseReleased(t) => NextCloseReleased(s, t, s')
    case ClosedOne(t, r) => NextClosedOne(s, t, r, s')
    case CloseDone(t) => NextCloseDone(s, t, s')
  }

  predicate NextStack(s: State, step: StackStep, s': State) {
    match step
    case StackEntered(t) => NextStackEntered(s, t, s')
    case StackSnapped(t) => NextStackSnapped(s, t, s')
    case StackValidated(t) => NextStackValidated(s, t, s')
    case StackRechecked(t) => NextStackRechecked(s, t, s')
    case StackReleased(t) => NextStackReleased(s, t, s')
  }

  // --- callbacks and background work ---

  predicate NextDeliver(c: Params, s: State, source: RuntimeId, cfg: Config, t: Tid, s': State) {
    && Fresh(s, t)
    && cfg.networkID == c.networkID
    && !s.sh.ctxDone && s.sh.runtime == Some(source)
    && s' == Begin(s.(sh := EnqueueConfig(s.sh, source, cfg),
                      world := s.world.(delivered := s.world.delivered + {(source, cfg)})), t, SendToken)
  }

  predicate NextTokenSent(s: State, t: Tid, s': State) {
    && AtFree(s, t, SendToken)
    && s' == Exit(s.(configCh := true), t)
  }

  predicate NextReceive(s: State, t: Tid, s': State) {
    && Fresh(s, t) && s.configCh
    && s' == Begin(s.(configCh := false), t, WorkerSnapshot)
  }

  predicate NextWorkerSnap(s: State, t: Tid, s': State) {
    && AtFree(s, t, WorkerSnapshot)
    && s' == if s.sh.haveLatest
             then Goto(s, t, Free(ApplyWait(Origin(s.sh.runtime, s.sh.latestConfig, true, s.sh.generation))))
             else Exit(s, t)
  }

  predicate NextNetworkInvalid(s: State, source: RuntimeId, err: Option<Error>, u: Tid, s': State) {
    && Fresh(s, u)
    && MayInvalidateNetwork(s.sh, Some(source))
    && s' == SpawnCloser(s.(sh := InvalidateNetwork(s.sh, Some(source), err, false)), s.sh.device, u)
  }

  predicate NextDeviceFailed(s: State, dev: DeviceId, err: Error, u: Tid, s': State) {
    && Fresh(s, u)
    && MayInvalidateDevice(s.sh, dev)
    && s' == Begin(s.(sh := InvalidateDevice(s.sh, dev, err)), u, Closer(dev))
  }

  predicate NextCloserDone(s: State, t: Tid, s': State) {
    && InFree(s, t) && s.threads[t].pc.free.Closer?
    && s' == Exit(s.(world := CloseResource(s.world, Device(s.threads[t].pc.free.dev))), t)
  }

  // --- startLocked ---

  predicate NextStartEnter(s: State, t: Tid, now: int, s': State) {
    && AtFree(s, t, EnsureStart) && LocksFree(s)
    && var s1 := s.(sh := StartForgets(s.sh, now));
    s' == match StartCheck(s.sh, now)
          case Refused => Exit(s1, t)
          case Backoff => Exit(s1, t)
          case Running => Goto(s1, t, Free(EnsureRetry))
          case Proceed => Acquire(s1, t, StartBuild(FromEnsure))
  }

  predicate NextBuilt(s: State, t: Tid, ok: bool, rt: RuntimeId, s': State) {
    && InOp(s, t) && s.threads[t].pc.op.StartBuild?
    && Runtime(rt) !in s.world.closes
    && var caller := s.threads[t].pc.op.caller;
    s' == if ok
          then Goto(s.(sh := PublishRuntime(s.sh, rt), world := CreateRuntime(s.world, rt)), t,
                    Op(StartJoin(caller, rt)))
          else Goto(s, t, Op(StartFailed(caller)))
  }

  predicate NextJoined(s: State, t: Tid, ok: bool, s': State) {
    && InOp(s, t) && s.threads[t].pc.op.StartJoin?
    && var pc := s.threads[t].pc.op;
    s' == if !ok then Goto(s.(sh := UnpublishRuntime(s.sh, pc.rt)), t, Op(StartCleanup(pc.caller, pc.rt)))
          else if pc.caller.FromEnsure? then Release(s, t, EnsureRetry)
          else Goto(s, t, Op(RecoverRelease))
  }

  predicate NextStartClosed(s: State, t: Tid, s': State) {
    && InOp(s, t) && s.threads[t].pc.op.StartCleanup?
    && var pc := s.threads[t].pc.op;
    s' == Goto(s.(world := CloseResource(s.world, Runtime(pc.rt))), t, Op(StartFailed(pc.caller)))
  }

  predicate NextStartReturned(s: State, t: Tid, err: Error, s': State) {
    && InOp(s, t) && s.threads[t].pc.op.StartFailed?
    && s' == if s.threads[t].pc.op.caller.FromEnsure? then Exit(s.(op := None), t)
             else Goto(s, t, Op(RecoverInvalidate(err)))
  }

  // --- retryNetwork and the rest of ensureStarted ---

  predicate NextRetryBegun(s: State, t: Tid, s': State) {
    && AtFree(s, t, EnsureRetry)
    && var o := Origin(s.sh.runtime, s.sh.latestConfig, s.sh.haveLatest, s.sh.generation);
    s' == if !MayRetry(s.sh) then Goto(s, t, Free(EnsureLoop))
          else s.(sh := BeginRetry(s.sh),
                  threads := s.threads[t := Thread(Free(if s.sh.retryLatest && s.sh.haveLatest then ApplyWait(o)
                                                        else RetryRefresh(o)), true)])
  }

  predicate NextFailureRecorded(s: State, t: Tid, s': State) {
    && InFree(s, t) && s.threads[t].pc.free.RecordingFailure?
    && var o := s.threads[t].pc.free.origin;
    var s1 := s.(sh := RecordFailure(s.sh, o.rt, o.cfg, true, o.generation, s.threads[t].pc.free.err, true));
    s' == if s.threads[t].deferred then Goto(s1, t, Free(RetryRefresh(o))) else Exit(s1, t)
  }

  predicate NextRefreshed(s: State, t: Tid, ok: bool, err: Error, s': State) {
    && InFree(s, t) && s.threads[t].pc.free.RetryRefresh?
    && var o := s.threads[t].pc.free.origin;
    s' == Goto(s, t, Free(if o.rt.None? || ok then RetryDone else RetryFailed(o, err)))
  }

  predicate NextRefreshFailureRecorded(s: State, t: Tid, s': State) {
    && InFree(s, t) && s.threads[t].pc.free.RetryFailed?
    && var pc := s.threads[t].pc.free;
    var o := pc.origin;
    s' == Goto(s.(sh := RecordFailure(s.sh, o.rt, o.cfg, o.have, o.generation, pc.err, s.sh.retryLatest)),
               t, Free(RetryDone))
  }

  /** The deferred function of `retryNetwork`. */
  predicate NextRetryEnded(s: State, t: Tid, s': State) {
    && AtFree(s, t, RetryDone)
    && s' == s.(sh := s.sh.(retrying := false), threads := s.threads[t := Thread(Free(EnsureLoop), false)])
  }

  predicate NextLooped(s: State, t: Tid, s': State) {
    && AtFree(s, t, EnsureLoop)
    && s' == if Waiting(s.sh) then Goto(s, t, Free(EnsureWait(s.sh.stateCh))) else Exit(s, t)
  }

  /** A channel is closed once `Notify` has replaced it. */
  predicate NextWoken(s: State, t: Tid, gaveUp: bool, s': State) {
    && InFree(s, t) && s.threads[t].pc.free.EnsureWait?
    && (gaveUp || s.sh.ctxDone || s.threads[t].pc.free.ch < s.sh.stateCh)
    && s' == if gaveUp || s.sh.ctxDone then Exit(s, t) else Goto(s, t, Free(EnsureLoop))
  }

  // --- applyNetworkConfig ---

  predicate NextApplyEnter(s: State, t: Tid, s': State) {
    && InFree(s, t) && s.threads[t].pc.free.ApplyWait? && LocksFree(s)
    && var o := s.threads[t].pc.free.origin;
    s' == if s.sh.ctxDone then AfterApply(s, t, o, Failed(Closed)) else Acquire(s, t, ApplySnapshot(o))
  }

  predicate NextApplySnapped(s: State, t: Tid, resolver: bool, s': State) {
    && InOp(s, t) && s.threads[t].pc.op.ApplySnapshot?
    && var o := s.threads[t].pc.op.origin;
    s' == Goto(s, t, Op(
                 if !SnapshotCurrent(s.sh, s.sh.runtime, o.cfg, true, o.generation) then ApplyReturn(o, Stale)
                 else if s.sh.runtime.None? then ApplyReturn(o, Failed(NotStarted))
                 else if |o.cfg.addresses| == 0 then ApplyReturn(o, Failed(NoAddresses))
                 else ApplyPrepare(Job(o, s.sh.runtime.value, s.sh.device, s.sh.config, resolver))))
  }

  predicate NextPrepared(c: Params, s: State, t: Tid, how: Preparation, dev: DeviceId, s': State) {
    && InOp(s, t) && s.threads[t].pc.op.ApplyPrepare?
    && Device(dev) !in s.world.closes && dev !in s.world.stacks
    && var job := s.threads[t].pc.op.job;
    var created := s.(world := CreateDevice(s.world, dev, StackFor(c, job.rt, job.origin.cfg)));
    s' == if how.ResolverFailed? then Goto(s, t, Op(ApplyReturn(job.origin, Failed(Other("resolver")))))
          else if !NeedsDevice(c, job.oldDevice, job.oldConfig, job.origin.cfg) then
            Goto(s, t, Op(ApplyRecheck(job, job.oldDevice.value, false)))
          else match how
               case StackFailed => Goto(s, t, Op(ApplyReturn(job.origin, Failed(Other("create stack device")))))
               case StartFailedToo =>
                 Goto(created, t, Op(ApplyClose(job.origin, dev, Failed(Other("start stack device")))))
               case _ => Goto(created, t, Op(ApplyStarted(job, dev)))
  }

  predicate NextStartedChecked(s: State, t: Tid, s': State) {
    && InOp(s, t) && s.threads[t].pc.op.ApplyStarted?
    && var pc := s.threads[t].pc.op;
    s' == Goto(s, t, Op(if s.sh.ctxDone then ApplyClose(pc.job.origin, pc.dev, Failed(Closed))
                        else ApplyRecheck(pc.job, pc.dev, true)))
  }

  predicate JobCurrent(sh: Shared, job: Job) {
    MayCommit(sh, job.rt, job.oldDevice, job.origin.cfg, job.origin.generation)
  }

  predicate NextRechecked(s: State, t: Tid, s': State) {
    && InOp(s, t) && s.threads[t].pc.op.ApplyRecheck?
    && var pc := s.threads[t].pc.op;
    s' == Goto(s, t, Op(if JobCurrent(s.sh, pc.job) then ApplyLink(pc.job, pc.dev, pc.replace)
                        else Abandon(pc.job, pc.dev, pc.replace, Stale)))
  }

  predicate NextLinkApplied(c: Params, s: State, t: Tid, ok: bool, s': State) {
    && InOp(s, t) && s.threads[t].pc.op.ApplyLink?
    && var pc := s.threads[t].pc.op;
    s' == if ok
          then Goto(s.(world := s.world.(link := s.world.link[pc.job.rt := Effective(c, pc.job.origin.cfg)])), t,
                    Op(ApplyCommit(pc.job, pc.dev, pc.replace)))
          else Goto(s, t, Op(Abandon(pc.job, pc.dev, pc.replace, Failed(Other("link")))))
  }

  predicate NextCommitDecided(s: State, t: Tid, s': State) {
    && InOp(s, t) && s.threads[t].pc.op.ApplyCommit?
    && var pc := s.threads[t].pc.op;
    s' == if !JobCurrent(s.sh, pc.job) then Goto(s, t, Op(ApplyRollback(pc.job, pc.dev, pc.replace)))
          else Goto(s.(sh := CommitConfig(s.sh, pc.job.origin.cfg, pc.dev, pc.job.resolver),
                       world := s.world.(leftOn := None)), t,
                    Op(if pc.replace && s.sh.device.Some? then ApplyClose(pc.job.origin, s.sh.device.value, Applied)
                       else ApplyReturn(pc.job.origin, Applied)))
  }

  /** Restores the link if there was a configuration to restore; a failure to do so is remembered. */
  function RollbackWorld(c: Params, w: World, job: Job, ok: bool): World {
    if !Restorable(c, job.oldConfig) then w
    else if ok then w.(link := w.link[job.rt := Effective(c, job.oldConfig)], leftOn := None)
    else w.(leftOn := Some(job.origin.cfg))
  }

  predicate NextRolledBack(c: Params, s: State, t: Tid, ok: bool, s': State) {
    && InOp(s, t) && s.threads[t].pc.op.ApplyRollback?
    && var pc := s.threads[t].pc.op;
    s' == Goto(s.(world := RollbackWorld(c, s.world, pc.job, ok)), t, Op(Abandon(pc.job, pc.dev, pc.replace, Stale)))
  }

  predicate NextApplyClosed(s: State, t: Tid, s': State) {
    && InOp(s, t) && s.threads[t].pc.op.ApplyClose?
    && var pc := s.threads[t].pc.op;
    s' == Goto(s.(world := CloseResource(s.world, Device(pc.dev))), t, Op(ApplyReturn(pc.origin, pc.res)))
  }

  predicate NextApplyReturned(s: State, t: Tid, s': State) {
    && InOp(s, t) && s.threads[t].pc.op.ApplyReturn?
    && s' == AfterApply(s.(op := None), t, s.threads[t].pc.op.origin, s.threads[t].pc.op.res)
  }

  // --- recoverIdentityCollision ---

  predicate NextRecoverEnter(s: State, t: Tid, s': State) {
    && InFree(s, t) && s.threads[t].pc.free.RecoverWait? && LocksFree(s)
    && s' == if s.sh.closed || s.sh.ctxDone then Exit(s, t)
             else Acquire(s, t, RecoverDetach(s.threads[t].pc.free.source))
  }

  predicate NextRecoverDetached(c: Params, s: State, t: Tid, addressMatches: bool, now: int, s': State) {
    && InOp(s, t) && s.threads[t].pc.op.RecoverDetach?
    && s' == if s.sh.runtime != Some(s.threads[t].pc.op.source) || !addressMatches then Goto(s, t, Op(RecoverRelease))
             else Goto(s.(sh := DetachCollided(c, s.sh, now)), t, Op(RecoverClose(Published(s.sh))))
  }

  predicate NextRecoverClosedOne(s: State, t: Tid, r: Resource, s': State) {
    && InOp(s, t) && s.threads[t].pc.op.RecoverClose? && r in s.threads[t].pc.op.owned
    && s' == Goto(s.(world := CloseResource(s.world, r)), t, Op(RecoverClose(s.threads[t].pc.op.owned - {r})))
  }

  /** Once everything is closed a generated identity is rotated and the outbound starts again. */
  function RecoverNext(c: Params, sh: Shared, now: int): OpPc {
    if c.configuredIdentity then RecoverRelease
    else match StartCheck(sh, now)
         case Refused => RecoverRelease
         case Backoff => RecoverInvalidate(Collision)
         case Running => RecoverRelease
         case Proceed => StartBuild(FromRecover)
  }

  predicate NextRecoverClosed(c: Params, s: State, t: Tid, now: int, s': State) {
    && AtOp(s, t, RecoverClose({}))
    && s' == Goto(s.(sh := if c.configuredIdentity then s.sh else StartForgets(s.sh, now)), t,
                  Op(RecoverNext(c, s.sh, now)))
  }

  predicate NextRecoverInvalidated(s: State, t: Tid, u: Tid, s': State) {
    && InOp(s, t) && s.threads[t].pc.op.RecoverInvalidate? && Fresh(s, u)
    && var detached := if s.sh.ctxDone then None else s.sh.device;
    s' == SpawnCloser(
            Goto(s.(sh := InvalidateNetwork(s.sh, None, Some(s.threads[t].pc.op.err), false)), t, Op(RecoverRelease)),
            detached, u)
  }

  predicate NextRecoverReleased(s: State, t: Tid, s': State) {
    && AtOp(s, t, RecoverRelease)
    && s' == Exit(s.(op := None), t)
  }

  // --- Close ---

  predicate NextCancelled(s: State, t: Tid, s': State) {
    && AtFree(s, t, CloseBegin)
    && s' == Goto(s.(sh := s.sh.(ctxDone := true)), t, Free(CloseWait))
  }

  predicate NextCloseEntered(s: State, t: Tid, s': State) {
    && AtFree(s, t, CloseWait) && LocksFree(s)
    && s' == if s.sh.closed then Exit(s, t) else Acquire(s, t, CloseDetach)
  }

  predicate NextCloseDetached(s: State, t: Tid, s': State) {
    && AtOp(s, t, CloseDetach)
    && s' == Goto(s.(sh := CloseOutbound(s.sh)), t, Op(CloseRelease(Published(s.sh))))
  }

  predicate NextCloseReleased(s: State, t: Tid, s': State) {
    && InOp(s, t) && s.threads[t].pc.op.CloseRelease?
    && s' == Release(s, t, CloseFinish(s.threads[t].pc.op.owned))
  }

  predicate NextClosedOne(s: State, t: Tid, r: Resource, s': State) {
    && InFree(s, t) && s.threads[t].pc.free.CloseFinish? && r in s.threads[t].pc.free.owned
    && s' == Goto(s.(world := CloseResource(s.world, r)), t, Free(CloseFinish(s.threads[t].pc.free.owned - {r})))
  }

  predicate NextCloseDone(s: State, t: Tid, s': State) {
    && AtFree(s, t, CloseFinish({}))
    && s' == Exit(s, t)
  }

  // --- networkStackFor ---

  predicate NextStackEntered(s: State, t: Tid, s': State) {
    && AtFree(s, t, StackWait) && s.op.None?
    && s' == Goto(s, t, Read(StackSnapshot)).(readers := s.readers + {t})
  }

  predicate NextStackSnapped(s: State, t: Tid, s': State) {
    && InRead(s, t) && s.threads[t].pc.read.StackSnapshot?
    && s' == Goto(s, t, Read(if s.sh.runtime.None? || s.sh.networkErr.Some? || s.sh.device.None? then StackRelease
                             else StackValidate(s.sh.runtime.value, s.sh.device.value)))
  }

  /** The destination is checked against whatever the IP link carries now. */
  predicate NextStackValidated(s: State, t: Tid, s': State) {
    && InRead(s, t) && s.threads[t].pc.read.StackValidate?
    && var pc := s.threads[t].pc.read;
    s' == Goto(s, t, Read(StackRecheck(pc.rt, pc.dev,
                                       if pc.rt in s.world.link then Some(s.world.link[pc.rt]) else None)))
  }

  predicate NextStackRechecked(s: State, t: Tid, s': State) {
    && InRead(s, t) && s.threads[t].pc.read.StackRecheck?
    && var pc := s.threads[t].pc.read;
    s' == Goto(s, t, Read(if s.sh.runtime == Some(pc.rt) && s.sh.device == Some(pc.dev) && s.sh.networkErr.None?
                          then StackReady(pc.rt, pc.dev, pc.seen) else StackRelease))
  }

  predicate NextStackReleased(s: State, t: Tid, s': State) {
    && InRead(s, t) && (s.threads[t].pc.read.StackReady? || s.threads[t].pc.read.StackRelease?)
    && s' == Exit(s, t).(readers := s.readers - {t})
  }
}
