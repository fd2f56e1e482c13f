/** No delivered configuration is forgotten: the latest one is published, pursued, or its failure is recorded. */
module ZeroTierPursuit {
  import opened Options
  import opened ZeroTierState
  import opened ZeroTierSteps
  import opened ZeroTierInvariant
  import opened ZeroTierInduction
  import opened ZeroTierPreservation
  import opened ZeroTierTheorems

  /** A snapshot that is of the latest configuration in the current generation. */
  predicate Matches(sh: Shared, o: Origin) {
    o.generation == sh.generation && o.cfg == sh.latestConfig
  }

  /** What a goroutine without the lock does for the latest configuration. */
  predicate FreePursues(sh: Shared, at: FreePc) {
    match at
    case SendToken => true
    case WorkerSnapshot => true
    case ApplyWait(o) => Matches(sh, o)
    case RecordingFailure(o, _) => Matches(sh, o)
    case _ => false
  }

  /** An apply goes on to publish, or to fail and say so, as long as the device is the one it saw. */
  predicate OpPursues(sh: Shared, at: OpPc) {
    match at
    case ApplySnapshot(o) => Matches(sh, o)
    case ApplyPrepare(job) => Matches(sh, job.origin) && sh.device == job.oldDevice
    case ApplyStarted(job, _) => Matches(sh, job.origin) && sh.device == job.oldDevice
    case ApplyRecheck(job, _, _) => Matches(sh, job.origin) && sh.device == job.oldDevice
    case ApplyLink(job, _, _) => Matches(sh, job.origin) && sh.device == job.oldDevice
    case ApplyCommit(job, _, _) => Matches(sh, job.origin) && sh.device == job.oldDevice
    case ApplyClose(o, _, res) => res.Failed? && Matches(sh, o)
    case ApplyReturn(o, res) => res.Failed? && Matches(sh, o)
    case _ => false
  }

  predicate Pursues(sh: Shared, pc: Pc) {
    match pc
    case Free(at) => FreePursues(sh, at)
    case Op(at) => OpPursues(sh, at)
    case Read(_) => false
  }

  predicate SomePursues(s: State) {
    exists t :: t in s.threads && Pursues(s.sh, s.threads[t].pc)
  }

  predicate FailureIsKnown(sh: Shared) {
    sh.networkErr.Some? && sh.retryLatest
  }

  /** A token waits, a goroutine is at it, or a failure that the next use retries is recorded. */
  predicate Explained(s: State) {
    s.configCh || SomePursues(s) || FailureIsKnown(s.sh)
  }

  /** There is a latest configuration for the running outbound, and it is not what is published. */
  predicate Owed(sh: Shared) {
    !sh.ctxDone && sh.runtime.Some? && sh.haveLatest && !(sh.device.Some? && sh.config == sh.latestConfig)
  }

  /** The snapshot a goroutine carries. */
  function OriginOf(pc: Pc): Option<Origin> {
    match pc
    case Free(ApplyWait(o)) => Some(o)
    case Free(RecordingFailure(o, _)) => Some(o)
    case Op(ApplySnapshot(o)) => Some(o)
    case Op(ApplyPrepare(job)) => Some(job.origin)
    case Op(ApplyStarted(job, _)) => Some(job.origin)
    case Op(ApplyRecheck(job, _, _)) => Some(job.origin)
    case Op(ApplyLink(job, _, _)) => Some(job.origin)
    case Op(ApplyCommit(job, _, _)) => Some(job.origin)
    case Op(ApplyRollback(job, _, _)) => Some(job.origin)
    case Op(ApplyClose(o, _, _)) => Some(o)
    case Op(ApplyReturn(o, _)) => Some(o)
    case _ => None
  }

  /** A snapshot of the current generation is of the runtime that is still published. */
  predicate OriginOk(sh: Shared, o: Origin) {
    o.generation <= sh.generation && (o.generation == sh.generation && sh.runtime.Some? ==> o.rt == sh.runtime)
  }

  predicate PcOk(sh: Shared, pc: Pc) {
    OriginOf(pc).Some? ==> OriginOk(sh, OriginOf(pc).value)
  }

  predicate OriginsOk(s: State) {
    forall t :: t in s.threads ==> PcOk(s.sh, s.threads[t].pc)
  }

  // ----- snapshots -----

  /** The runtime changes to another only in a new generation, and a new runtime has no configuration. */
  predicate RuntimeFollows(sh: Shared, sh': Shared) {
    && sh.generation <= sh'.generation
    && (sh'.generation == sh.generation && sh'.runtime.Some? ==> sh'.runtime == sh.runtime)
    && (sh'.runtime.Some? && sh'.runtime != sh.runtime ==> !sh'.haveLatest)
  }

  lemma CallbackRuntime(c: Params, s: State, of: CallbackStep, s': State)
    requires NextCallback(c, s, of, s')
    ensures RuntimeFollows(s.sh, s'.sh)
  {
  }

  lemma StartRuntime(s: State, of: StartStep, s': State)
    requires NextStart(s, of, s')
    ensures RuntimeFollows(s.sh, s'.sh)
  {
  }

  lemma EnsureRuntime(s: State, of: EnsureStep, s': State)
    requires NextEnsure(s, of, s')
    ensures RuntimeFollows(s.sh, s'.sh)
  {
  }

  lemma ApplyRuntime(c: Params, s: State, of: ApplyStep, s': State)
    requires NextApply(c, s, of, s')
    ensures RuntimeFollows(s.sh, s'.sh)
  {
  }

  lemma RecoverRuntime(c: Params, s: State, of: RecoverStep, s': State)
    requires NextRecover(c, s, of, s')
    ensures RuntimeFollows(s.sh, s'.sh)
  {
  }

  lemma CloseRuntime(s: State, of: CloseStep, s': State)
    requires NextClose(s, of, s')
    ensures RuntimeFollows(s.sh, s'.sh)
  {
  }

  lemma StepRuntime(c: Params, s: State, step: Step, s': State)
    requires Next(c, s, step, s')
    ensures RuntimeFollows(s.sh, s'.sh)
  {
    hide NextCallback, NextStart, NextEnsure, NextApply, NextRecover, NextClose, RuntimeFollows;
    match step
    case Callback(of) => CallbackRuntime(c, s, of, s');
    case Start(of) => StartRuntime(s, of, s');
    case Ensure(of) => EnsureRuntime(s, of, s');
    case Apply(of) => ApplyRuntime(c, s, of, s');
    case Recover(of) => RecoverRuntime(c, s, of, s');
    case Close(of) => CloseRuntime(s, of, s');
    case Stack(of) => StackRuntime(s, of, s');
  }

  lemma StackRuntime(s: State, of: StackStep, s': State)
    requires NextStack(s, of, s')
    ensures RuntimeFollows(s.sh, s'.sh)
  {
  }

  // ----- handing on -----

  /** Goroutine `t` and the fields alone explain what is owed. */
  predicate OwnExplains(s: State, t: Tid) {
    s.configCh || FailureIsKnown(s.sh) || (t in s.threads && Pursues(s.sh, s.threads[t].pc))
  }

  /** What the pursuit of others depends on. */
  predicate SameAim(sh: Shared, sh': Shared) {
    sh'.generation == sh.generation && sh'.latestConfig == sh.latestConfig && sh'.device == sh.device
  }

  /** A step of `t` explains what it leaves owed, or leaves what others do alone and hands on what it did itself. */
  predicate HandsOn(s: State, s': State, t: Tid) {
    || !Owed(s'.sh)
    || OwnExplains(s', t)
    || (Owed(s.sh) && SameAim(s.sh, s'.sh) && !OwnExplains(s, t))
  }

  predicate OwnOk(s: State, s': State, t: Tid) {
    (t in s'.threads ==> PcOk(s'.sh, s'.threads[t].pc)) && HandsOn(s, s', t)
  }

  /** An apply is of the published runtime. */
  predicate JobRuns(sh: Shared, at: OpPc) {
    match at
    case ApplyPrepare(job) => sh.runtime == Some(job.rt)
    case ApplyStarted(job, _) => sh.runtime == Some(job.rt)
    case ApplyRecheck(job, _, _) => sh.runtime == Some(job.rt)
    case ApplyLink(job, _, _) => sh.runtime == Some(job.rt)
    case ApplyCommit(job, _, _) => sh.runtime == Some(job.rt)
    case _ => true
  }

  /** What the step of `t` may use. */
  predicate Ready(s: State, t: Tid) {
    && (s.sh.retryLatest ==> s.sh.haveLatest)
    && (t in s.threads ==>
          PcOk(s.sh, s.threads[t].pc) && (s.threads[t].pc.Op? ==> JobRuns(s.sh, s.threads[t].pc.op)))
  }

  lemma InvIsReady(c: Params, s: State, t: Tid)
    requires Inv(c, s) && OriginsOk(s)
    ensures Ready(s, t)
  {
    hide LinkOk, OwnershipOk, RetryOk, LocksOk;
    if t in s.threads {
      assert ThreadOk(c, s.sh, s.world, s.threads[t]);
    }
  }

  lemma CallbackHandsOn(c: Params, s: State, of: CallbackStep, s': State)
    requires NextCallback(c, s, of, s') && Ready(s, Actor(Callback(of)))
    ensures OwnOk(s, s', Actor(Callback(of)))
  {
  }

  lemma StartHandsOn(c: Params, s: State, of: StartStep, s': State)
    requires NextStart(s, of, s') && Ready(s, of.t)
    ensures OwnOk(s, s', of.t)
  {
  }

  lemma RecordingHandsOn(c: Params, s: State, of: EnsureStep, s': State)
    requires NextEnsure(s, of, s') && Ready(s, of.t)
    requires of.RetryBegun? || of.FailureRecorded? || of.RefreshFailureRecorded?
    ensures OwnOk(s, s', of.t)
  {
    hide NextRefreshed, NextRetryEnded, NextLooped, NextWoken;
  }

  lemma WaitingHandsOn(c: Params, s: State, of: EnsureStep, s': State)
    requires NextEnsure(s, of, s') && Ready(s, of.t)
    requires !(of.RetryBegun? || of.FailureRecorded? || of.RefreshFailureRecorded?)
    ensures OwnOk(s, s', of.t)
  {
    hide NextRetryBegun, NextFailureRecorded, NextRefreshFailureRecorded;
  }

  lemma EnsureHandsOn(c: Params, s: State, of: EnsureStep, s': State)
    requires NextEnsure(s, of, s') && Ready(s, of.t)
    ensures OwnOk(s, s', of.t)
  {
    hide NextEnsure, Ready, OwnOk;
    if of.RetryBegun? || of.FailureRecorded? || of.RefreshFailureRecorded? {
      RecordingHandsOn(c, s, of, s');
    } else {
      WaitingHandsOn(c, s, of, s');
    }
  }

  lemma EnteringHandsOn(c: Params, s: State, of: ApplyStep, s': State)
    requires NextApply(c, s, of, s') && Ready(s, of.t)
    requires of.ApplyEnter? || of.ApplySnapped?
    ensures OwnOk(s, s', of.t)
  {
    hide NextPrepared, NextStartedChecked, NextRechecked, NextLinkApplied, NextCommitDecided, NextRolledBack;
    hide NextApplyClosed, NextApplyReturned;
  }

  lemma PreparingHandsOn(c: Params, s: State, of: ApplyStep, s': State)
    requires NextApply(c, s, of, s') && Ready(s, of.t)
    requires of.Prepared? || of.StartedChecked? || of.Rechecked?
    ensures OwnOk(s, s', of.t)
  {
    hide NextApplyEnter, NextApplySnapped, NextLinkApplied, NextCommitDecided, NextRolledBack;
    hide NextApplyClosed, NextApplyReturned;
  }

  lemma CommittingHandsOn(c: Params, s: State, of: ApplyStep, s': State)
    requires NextApply(c, s, of, s') && Ready(s, of.t)
    requires of.LinkApplied? || of.CommitDecided?
    ensures OwnOk(s, s', of.t)
  {
    hide NextApplyEnter, NextApplySnapped, NextPrepared, NextStartedChecked, NextRechecked, NextRolledBack;
    hide NextApplyClosed, NextApplyReturned;
  }

  lemma ReturningHandsOn(c: Params, s: State, of: ApplyStep, s': State)
    requires NextApply(c, s, of, s') && Ready(s, of.t)
    requires of.RolledBack? || of.ApplyClosed? || of.ApplyReturned?
    ensures OwnOk(s, s', of.t)
  {
    hide NextApplyEnter, NextApplySnapped, NextPrepared, NextStartedChecked, NextRechecked, NextLinkApplied;
    hide NextCommitDecided;
  }

  lemma ApplyHandsOn(c: Params, s: State, of: ApplyStep, s': State)
    requires NextApply(c, s, of, s') && Ready(s, of.t)
    ensures OwnOk(s, s', of.t)
  {
    hide NextApply, Ready, OwnOk;
    if of.ApplyEnter? || of.ApplySnapped? {
      EnteringHandsOn(c, s, of, s');
    } else if of.Prepared? || of.StartedChecked? || of.Rechecked? {
      PreparingHandsOn(c, s, of, s');
    } else if of.LinkApplied? || of.CommitDecided? {
      CommittingHandsOn(c, s, of, s');
    } else {
      ReturningHandsOn(c, s, of, s');
    }
  }

  lemma DetachingHandsOn(c: Params, s: State, of: RecoverStep, s': State)
    requires NextRecover(c, s, of, s') && Ready(s, of.t)
    requires of.RecoverDetached? || of.RecoverInvalidated?
    ensures OwnOk(s, s', of.t)
  {
    hide NextRecoverEnter, NextRecoverClosedOne, NextRecoverClosed, NextRecoverReleased;
  }

  lemma RestartingHandsOn(c: Params, s: State, of: RecoverStep, s': State)
    requires NextRecover(c, s, of, s') && Ready(s, of.t)
    requires !(of.RecoverDetached? || of.RecoverInvalidated?)
    ensures OwnOk(s, s', of.t)
  {
    hide NextRecoverDetached, NextRecoverInvalidated;
  }

  lemma RecoverHandsOn(c: Params, s: State, of: RecoverStep, s': State)
    requires NextRecover(c, s, of, s') && Ready(s, of.t)
    ensures OwnOk(s, s', of.t)
  {
    hide NextRecover, Ready, OwnOk;
    if of.RecoverDetached? || of.RecoverInvalidated? {
      DetachingHandsOn(c, s, of, s');
    } else {
      RestartingHandsOn(c, s, of, s');
    }
  }

  lemma CancellingHandsOn(c: Params, s: State, of: CloseStep, s': State)
    requires NextClose(s, of, s') && Ready(s, of.t)
    requires of.Cancelled? || of.CloseDetached?
    ensures OwnOk(s, s', of.t)
  {
    hide NextCloseEntered, NextCloseReleased, NextClosedOne, NextCloseDone;
  }

  lemma ReleasingHandsOn(c: Params, s: State, of: CloseStep, s': State)
    requires NextClose(s, of, s') && Ready(s, of.t)
    requires !(of.Cancelled? || of.CloseDetached?)
    ensures OwnOk(s, s', of.t)
  {
    hide NextCancelled, NextCloseDetached;
  }

  lemma CloseHandsOn(c: Params, s: State, of: CloseStep, s': State)
    requires NextClose(s, of, s') && Ready(s, of.t)
    ensures OwnOk(s, s', of.t)
  {
    hide NextClose, Ready, OwnOk;
    if of.Cancelled? || of.CloseDetached? {
      CancellingHandsOn(c, s, of, s');
    } else {
      ReleasingHandsOn(c, s, of, s');
    }
  }

  lemma StackHandsOn(c: Params, s: State, of: StackStep, s': State)
    requires NextStack(s, of, s') && Ready(s, of.t)
    ensures OwnOk(s, s', of.t)
  {
  }

  lemma StepHandsOn(c: Params, s: State, step: Step, s': State)
    requires Next(c, s, step, s') && Ready(s, Actor(step))
    ensures OwnOk(s, s', Actor(step))
  {
    hide NextCallback, NextStart, NextEnsure, NextApply, NextRecover, NextClose, NextStack, Ready, OwnOk;
    match step
    case Callback(of) => CallbackHandsOn(c, s, of, s');
    case Start(of) => StartHandsOn(c, s, of, s');
    case Ensure(of) => EnsureHandsOn(c, s, of, s');
    case Apply(of) => ApplyHandsOn(c, s, of, s');
    case Recover(of) => RecoverHandsOn(c, s, of, s');
    case Close(of) => CloseHandsOn(c, s, of, s');
    case Stack(of) => StackHandsOn(c, s, of, s');
  }

  // ----- every run -----

  lemma SameAimSamePursuit(sh: Shared, sh': Shared, pc: Pc)
    requires SameAim(sh, sh') && Pursues(sh, pc)
    ensures Pursues(sh', pc)
  {
  }

  lemma OthersGoOn(s: State, s': State, t: Tid)
    requires OthersStay(s, s', t, t) && HandsOn(s, s', t) && (Owed(s.sh) ==> Explained(s))
    ensures Owed(s'.sh) ==> Explained(s')
  {
    hide Owed, Pursues, FailureIsKnown, SameAim;
    if Owed(s'.sh) && !OwnExplains(s', t) {
      var u :| u in s.threads && Pursues(s.sh, s.threads[u].pc);
      SameAimSamePursuit(s.sh, s'.sh, s.threads[u].pc);
      assert u in s'.threads && s'.threads[u] == s.threads[u];
    }
  }

  lemma OriginsStay(s: State, s': State, t: Tid)
    requires OthersStay(s, s', t, t) && OriginsOk(s) && RuntimeFollows(s.sh, s'.sh)
    requires t in s'.threads ==> PcOk(s'.sh, s'.threads[t].pc)
    ensures OriginsOk(s')
  {
    hide OriginOf;
    forall x | x in s'.threads
      ensures PcOk(s'.sh, s'.threads[x].pc)
    {
      if x != t {
        assert PcOk(s.sh, s.threads[x].pc) && s'.threads[x] == s.threads[x];
      }
    }
  }

  /**
   Over every run: while the outbound runs, a latest configuration that is not published has a
   token waiting, a goroutine at it, or a recorded failure that the next use retries.
   */
  lemma {:induction false} NoConfigIsLost(c: Params, states: seq<State>, steps: seq<Step>, i: nat)
    requires IsRun(c, states, steps) && i < |states|
    ensures OriginsOk(states[i]) && (Owed(states[i].sh) ==> Explained(states[i]))
  {
    hide Next, Inv, Owed, Explained, HandsOn, PcOk, RuntimeFollows, Ready;
    if i == 0 {
      NothingOwedAtFirst();
    } else {
      var s, step, s' := states[i - 1], steps[i - 1], states[i];
      NoConfigIsLost(c, states, steps, i - 1);
      RunKeepsInv(c, states, steps, i - 1);
      InvIsReady(c, s, Actor(step));
      StepHandsOn(c, s, step, s');
      StepRelies(c, s, step, s');
      StepRuntime(c, s, step, s');
      OriginsStay(s, s', Actor(step));
      OthersGoOn(s, s', Actor(step));
    }
  }

  lemma NothingOwedAtFirst()
    ensures OriginsOk(INITIAL) && !Owed(INITIAL.sh)
  {
  }

  /** In particular, with no goroutine left and no token waiting, only a recorded failure can be in the way. */
  lemma RestMeansPublishedOrFailed(c: Params, states: seq<State>, steps: seq<Step>, i: nat)
    requires IsRun(c, states, steps) && i < |states|
    requires states[i].threads == map[] && !states[i].configCh
    requires !states[i].sh.ctxDone && states[i].sh.runtime.Some? && states[i].sh.haveLatest
    ensures
      || (states[i].sh.device.Some? && states[i].sh.config == states[i].sh.latestConfig)
      || FailureIsKnown(states[i].sh)
  {
    hide Next;
    NoConfigIsLost(c, states, steps, i);
  }

  /**
   A configuration without a runtime, as a failed start leaves it, is not carried over: between any
   two states with different runtimes the later runtime once had no configuration.
   */
  lemma {:induction false} NoConfigIsCarriedOver(c: Params, states: seq<State>, steps: seq<Step>, i: nat, j: nat)
    requires IsRun(c, states, steps) && i <= j < |states|
    requires states[j].sh.runtime.Some? && states[j].sh.runtime != states[i].sh.runtime
    ensures exists k :: i < k <= j && states[k].sh.runtime == states[j].sh.runtime && !states[k].sh.haveLatest
    decreases j - i
  {
    hide Next;
    StepRuntime(c, states[j - 1], steps[j - 1], states[j]);
    if states[j - 1].sh.runtime == states[j].sh.runtime {
      NoConfigIsCarriedOver(c, states, steps, i, j - 1);
    } else {
      assert !states[j].sh.haveLatest;
    }
  }
}
