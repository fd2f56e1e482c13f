/** The invariant of the ZeroTier transition system. */
module ZeroTierInvariant {
  import opened Options
  import opened ZeroTierState
  import opened ZeroTierSteps

  predicate StackIs(w: World, dev: DeviceId, stack: Making) {
    dev in w.stacks && w.stacks[dev] == stack
  }

  /** What the published fields promise in every state. */
  predicate SharedOk(c: Params, sh: Shared, w: World) {
    && (sh.device.Some? ==>
          && sh.runtime.Some?
          && StackIs(w, sh.device.value, StackFor(c, sh.runtime.value, sh.config))
          && Restorable(c, sh.config))
    && (sh.resolver.Some? ==> sh.device.Some? && sh.resolver.value == sh.config)
    && (sh.haveLatest ==> sh.latestConfig.networkID == c.networkID)
    && (sh.haveLatest && sh.runtime.Some? ==> (sh.runtime.value, sh.latestConfig) in w.delivered)
    && (sh.retryLatest ==> sh.haveLatest)
    && (sh.config != ZERO_CONFIG ==> sh.runtime.Some? && (sh.runtime.value, sh.config) in w.delivered)
    && (sh.closed ==> sh.ctxDone && sh.runtime.None? && sh.networkErr == Some(Closed))
  }

  /** What an apply still knows about the fields it read in its first phase. */
  predicate JobOk(c: Params, sh: Shared, job: Job) {
    && sh.runtime == Some(job.rt)
    && sh.config == job.oldConfig
    && (sh.device == job.oldDevice || sh.device.None?)
    && (job.oldDevice.Some? ==> Restorable(c, job.oldConfig))
    && |job.origin.cfg.addresses| != 0
    && job.origin.generation <= sh.generation
  }

  predicate DeviceOk(c: Params, w: World, job: Job, dev: DeviceId, replace: bool) {
    if replace then StackIs(w, dev, StackFor(c, job.rt, job.origin.cfg))
    else job.oldDevice == Some(dev) && !NeedsDevice(c, job.oldDevice, job.oldConfig, job.origin.cfg)
  }

  predicate LinkCarries(w: World, rt: RuntimeId, cfg: Config) {
    rt in w.link && w.link[rt] == cfg
  }

  function LinkOf(w: World, rt: RuntimeId): Option<Config> {
    if rt in w.link then Some(w.link[rt]) else None
  }

  predicate FreeOk(sh: Shared, at: FreePc) {
    match at
    case EnsureWait(ch) => ch <= sh.stateCh && (ch == sh.stateCh ==> Waiting(sh))
    case CloseWait => sh.ctxDone
    case _ => true
  }

  predicate OpOk(c: Params, sh: Shared, w: World, at: OpPc) {
    match at
    case StartBuild(_) => sh.runtime.None? && !sh.closed
    case StartJoin(_, rt) => sh.runtime == Some(rt) && sh.device.None? && sh.config == ZERO_CONFIG
    case StartCleanup(_, _) => sh.runtime.None?
    case StartFailed(_) => sh.runtime.None?
    case RecoverClose(_) => sh.runtime.None?
    case RecoverInvalidate(_) => sh.runtime.None?
    case ApplyPrepare(job) => JobOk(c, sh, job)
    case ApplyStarted(job, dev) => JobOk(c, sh, job) && DeviceOk(c, w, job, dev, true)
    case ApplyRecheck(job, dev, replace) => JobOk(c, sh, job) && DeviceOk(c, w, job, dev, replace)
    case ApplyLink(job, dev, replace) => JobOk(c, sh, job) && DeviceOk(c, w, job, dev, replace)
    case ApplyCommit(job, dev, replace) =>
      JobOk(c, sh, job) && DeviceOk(c, w, job, dev, replace) && LinkCarries(w, job.rt, Effective(c, job.origin.cfg))
    case ApplyRollback(job, dev, replace) =>
      JobOk(c, sh, job) && DeviceOk(c, w, job, dev, replace) && LinkCarries(w, job.rt, Effective(c, job.origin.cfg))
    case CloseDetach => sh.ctxDone
    case _ => true
  }

  /** A reader's device is still the published one, or none is published any more. */
  predicate StackOk(sh: Shared, rt: RuntimeId, dev: DeviceId) {
    sh.runtime == Some(rt) && (sh.device == Some(dev) || sh.device.None?)
  }

  predicate ReadOk(sh: Shared, w: World, at: ReadPc) {
    match at
    case StackValidate(rt, dev) => StackOk(sh, rt, dev)
    case StackRecheck(rt, dev, seen) => StackOk(sh, rt, dev) && seen == LinkOf(w, rt)
    case StackReady(rt, dev, seen) => StackOk(sh, rt, dev) && seen == LinkOf(w, rt)
    case _ => true
  }

  predicate InApply(at: OpPc) {
    !(at.StartBuild? || at.StartJoin? || at.StartCleanup? || at.StartFailed? || at.RecoverDetach? || at.RecoverClose? ||
      at.RecoverInvalidate? || at.RecoverRelease? || at.CloseDetach? || at.CloseRelease?)
  }

  /** The deferred reset is owed inside `retryNetwork` and nowhere else; `applyNetworkConfig` has two callers. */
  predicate DeferOk(pc: Pc, deferred: bool) {
    match pc
    case Free(at) =>
      if at.RetryRefresh? || at.RetryFailed? || at.RetryDone? then deferred
      else deferred ==> at.ApplyWait? || at.RecordingFailure?
    case Op(at) => deferred ==> InApply(at)
    case Read(_) => !deferred
  }

  /** What a goroutine knows at its program point. */
  predicate ThreadOk(c: Params, sh: Shared, w: World, th: Thread) {
    DeferOk(th.pc, th.deferred) &&
    match th.pc
    case Free(at) => FreeOk(sh, at)
    case Op(at) => OpOk(c, sh, w, at)
    case Read(at) => ReadOk(sh, w, at)
  }

  predicate ThreadsOk(c: Params, s: State) {
    forall t :: t in s.threads ==> ThreadOk(c, s.sh, s.world, s.threads[t])
  }

  /** `operationMu` is held by exactly the goroutines whose program point says so. */
  predicate LocksOk(s: State) {
    && (forall t :: t in s.threads ==> (s.threads[t].pc.Op? <==> s.op == Some(t)))
    && (forall t :: t in s.threads ==> (s.threads[t].pc.Read? <==> t in s.readers))
    && (s.op.Some? ==> s.op.value in s.threads && s.readers == {})
    && (forall t :: t in s.readers ==> t in s.threads)
  }

  predicate Touching(s: State) {
    s.op.Some? && s.op.value in s.threads && LinkInFlight(s.threads[s.op.value].pc)
  }

  /** The configuration the link is on: the published one, unless a failed rollback left another there. */
  function LinkConfig(s: State): Config {
    if s.world.leftOn.Some? then s.world.leftOn.value else s.sh.config
  }

  /** With a device published and no apply half done, the link carries what it was left on. */
  predicate LinkOk(c: Params, s: State) {
    s.sh.device.Some? && !Touching(s) ==>
      s.sh.runtime.Some? && LinkCarries(s.world, s.sh.runtime.value, Effective(c, LinkConfig(s)))
  }

  // ----- ownership -----

  function OwnedBy(s: State, t: Tid): set<Resource> {
    if t in s.threads then Owned(s.threads[t].pc) else {}
  }

  ghost predicate HasOwner(s: State, r: Resource) {
    exists t :: r in OwnedBy(s, t)
  }

  /** Every resource is published, or owned by one goroutine, or closed once, and only one of these. */
  ghost predicate OwnershipOk(s: State) {
    && (forall r :: r in Published(s.sh) ==> r in s.world.closes && s.world.closes[r] == 0)
    && (forall t, r :: r in OwnedBy(s, t) ==> r in s.world.closes && s.world.closes[r] == 0 && r !in Published(s.sh))
    && (forall t, u, r :: t != u && r in OwnedBy(s, t) ==> r !in OwnedBy(s, u))
    && (forall r :: r in s.world.closes ==> s.world.closes[r] <= 1)
    && (forall r :: r in s.world.closes && s.world.closes[r] == 0 ==> r in Published(s.sh) || HasOwner(s, r))
  }

  // ----- the retry slot -----

  predicate Retries(s: State, t: Tid) {
    t in s.threads && s.threads[t].deferred
  }

  /** `networkRetrying` is set exactly while one goroutine is inside `retryNetwork`. */
  ghost predicate RetryOk(s: State) {
    && (forall t :: Retries(s, t) ==> s.sh.retrying)
    && (forall t, u :: Retries(s, t) && Retries(s, u) ==> t == u)
    && (s.sh.retrying ==> exists t :: Retries(s, t))
  }

  ghost predicate Inv(c: Params, s: State) {
    SharedOk(c, s.sh, s.world) && ThreadsOk(c, s) && LocksOk(s) && LinkOk(c, s) && OwnershipOk(s) && RetryOk(s)
  }

  lemma InitialInv(c: Params)
    ensures Inv(c, INITIAL)
  {
  }
}
