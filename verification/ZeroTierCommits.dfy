/** What a commit of a network configuration saw, from its snapshots on. */
module ZeroTierCommits {
  import opened Options
  import opened ZeroTierState
  import opened ZeroTierSteps
  import opened ZeroTierTheorems

  /** Step `i` is the snapshot with which `t` begins the apply of `job`. */
  predicate SnapsAt(states: seq<State>, steps: seq<Step>, i: nat, t: Tid, job: Job) {
    && i < |steps| && i + 1 < |states|
    && steps[i].Apply? && steps[i].ofApply.ApplySnapped? && steps[i].ofApply.t == t
    && JobAt(states[i + 1], t, job)
  }

  /** An apply of `t` from its snapshot at step `i` to its commit at step `j`. */
  predicate AppliesFromTo(c: Params, states: seq<State>, steps: seq<Step>, i: nat, j: nat, t: Tid, job: Job) {
    && IsRun(c, states, steps) && i < j && SnapsAt(states, steps, i, t, job) && CommitsAt(states, steps, j, t)
    && forall n :: i < n <= j ==> JobAt(states[n], t, job)
  }

  predicate DeliversAt(steps: seq<Step>, k: nat) {
    k < |steps| && steps[k].Callback? && steps[k].ofCallback.Deliver?
  }

  // ----- the latest configuration -----

  /** What a step does to the latest configuration unless it starts a new generation. */
  predicate LatestFollows(sh: Shared, step: Step, sh': Shared) {
    if step.Callback? && step.ofCallback.Deliver? then sh'.haveLatest && sh'.latestConfig == step.ofCallback.cfg
    else sh'.haveLatest == sh.haveLatest && sh'.latestConfig == sh.latestConfig
  }

  lemma CallbackLatest(c: Params, s: State, of: CallbackStep, s': State)
    requires NextCallback(c, s, of, s') && s'.sh.generation == s.sh.generation
    ensures LatestFollows(s.sh, Callback(of), s'.sh)
  {
  }

  lemma StartEnterLatest(s: State, t: Tid, now: int, s': State)
    requires NextStartEnter(s, t, now, s')
    ensures s'.sh.haveLatest == s.sh.haveLatest && s'.sh.latestConfig == s.sh.latestConfig
  {
  }

  lemma BuiltLatest(s: State, t: Tid, ok: bool, rt: RuntimeId, s': State)
    requires NextBuilt(s, t, ok, rt, s')
    ensures s'.sh.generation == s.sh.generation ==> s'.sh == s.sh
  {
  }

  lemma StartLatest(s: State, of: StartStep, s': State)
    requires NextStart(s, of, s') && s'.sh.generation == s.sh.generation
    ensures LatestFollows(s.sh, Start(of), s'.sh)
  {
    hide NextStartEnter, NextBuilt;
    if of.StartEnter? {
      StartEnterLatest(s, of.t, of.now, s');
    }
    if of.Built? {
      BuiltLatest(s, of.t, of.ok, of.rt, s');
    }
  }

  lemma FailureRecordedLatest(s: State, t: Tid, s': State)
    requires NextFailureRecorded(s, t, s') || NextRefreshFailureRecorded(s, t, s')
    ensures s'.sh.haveLatest == s.sh.haveLatest && s'.sh.latestConfig == s.sh.latestConfig
  {
  }

  lemma EnsureLatest(s: State, of: EnsureStep, s': State)
    requires NextEnsure(s, of, s') && s'.sh.generation == s.sh.generation
    ensures LatestFollows(s.sh, Ensure(of), s'.sh)
  {
    hide NextFailureRecorded, NextRefreshFailureRecorded;
    if of.FailureRecorded? || of.RefreshFailureRecorded? {
      FailureRecordedLatest(s, of.t, s');
    }
  }

  lemma ApplyLatest(c: Params, s: State, of: ApplyStep, s': State)
    requires NextApply(c, s, of, s') && s'.sh.generation == s.sh.generation
    ensures LatestFollows(s.sh, Apply(of), s'.sh)
  {
  }

  lemma RecoverInvalidatedLatest(s: State, t: Tid, u: Tid, s': State)
    requires NextRecoverInvalidated(s, t, u, s')
    ensures s'.sh.generation == s.sh.generation ==> s'.sh == s.sh
  {
    hide SetNetworkFailure, DetachStack;
    FailureKeepsGeneration(DetachStack(s.sh).(latestConfig := ZERO_CONFIG, haveLatest := false,
                                              generation := s.sh.generation + 1),
                           Some(s.threads[t].pc.op.err), false);
  }

  lemma FailureKeepsGeneration(sh: Shared, err: Option<Error>, retry: bool)
    ensures SetNetworkFailure(sh, err, retry).generation == sh.generation
  {
  }

  lemma RecoverDetachedLatest(c: Params, s: State, t: Tid, addressMatches: bool, now: int, s': State)
    requires NextRecoverDetached(c, s, t, addressMatches, now, s')
    ensures s'.sh.generation == s.sh.generation ==> s'.sh == s.sh
  {
  }

  lemma RecoverLatest(c: Params, s: State, of: RecoverStep, s': State)
    requires NextRecover(c, s, of, s') && s'.sh.generation == s.sh.generation
    ensures LatestFollows(s.sh, Recover(of), s'.sh)
  {
    hide NextRecoverInvalidated, NextRecoverDetached;
    if of.RecoverInvalidated? {
      RecoverInvalidatedLatest(s, of.t, of.u, s');
    }
    if of.RecoverDetached? {
      RecoverDetachedLatest(c, s, of.t, of.addressMatches, of.now, s');
    }
  }

  lemma CloseLatest(s: State, of: CloseStep, s': State)
    requires NextClose(s, of, s') && s'.sh.generation == s.sh.generation
    ensures LatestFollows(s.sh, Close(of), s'.sh)
  {
  }

  lemma StackLatest(s: State, of: StackStep, s': State)
    requires NextStack(s, of, s')
    ensures LatestFollows(s.sh, Stack(of), s'.sh)
  {
  }

  /** Within a generation only a delivery changes the latest configuration, and always to what it delivers. */
  lemma OnlyDeliveriesChangeLatest(c: Params, s: State, step: Step, s': State)
    requires Next(c, s, step, s') && s'.sh.generation == s.sh.generation
    ensures LatestFollows(s.sh, step, s'.sh)
  {
    hide NextCallback, NextStart, NextEnsure, NextApply, NextRecover, NextClose, NextStack, LatestFollows;
    match step
    case Callback(of) => CallbackLatest(c, s, of, s');
    case Start(of) => StartLatest(s, of, s');
    case Ensure(of) => EnsureLatest(s, of, s');
    case Apply(of) => ApplyLatest(c, s, of, s');
    case Recover(of) => RecoverLatest(c, s, of, s');
    case Close(of) => CloseLatest(s, of, s');
    case Stack(of) => StackLatest(s, of, s');
  }

  // ----- from the snapshot of the apply -----

  lemma SnapshotIsCurrent(c: Params, states: seq<State>, steps: seq<Step>, i: nat, t: Tid, job: Job)
    requires IsRun(c, states, steps) && SnapsAt(states, steps, i, t, job)
    ensures JobCurrent(states[i].sh, job) && states[i].sh.config == job.oldConfig && states[i + 1].sh == states[i].sh
  {
    assert NextApplySnapped(states[i], t, steps[i].ofApply.resolver, states[i + 1]);
  }

  lemma CommitIsCurrent(c: Params, states: seq<State>, steps: seq<Step>, j: nat, t: Tid, job: Job)
    requires IsRun(c, states, steps) && CommitsAt(states, steps, j, t) && JobAt(states[j], t, job)
    ensures JobCurrent(states[j].sh, job)
    ensures states[j + 1].sh.config == job.origin.cfg
    ensures states[j + 1].sh.haveLatest && states[j + 1].sh.latestConfig == job.origin.cfg
  {
    assert NextCommitDecided(states[j], t, states[j + 1]);
  }

  lemma GenerationStays(c: Params, states: seq<State>, steps: seq<Step>, i: nat, j: nat, t: Tid, job: Job, k: nat)
    requires AppliesFromTo(c, states, steps, i, j, t, job) && i <= k <= j
    ensures states[k].sh.generation == job.origin.generation
  {
    hide Next;
    CommitIsCurrent(c, states, steps, j, t, job);
    SnapshotIsCurrent(c, states, steps, i, t, job);
    GenerationGrows(c, states, steps, i, k);
    GenerationGrows(c, states, steps, k, j);
  }

  lemma LatestStepByStep(c: Params, states: seq<State>, steps: seq<Step>, i: nat, j: nat, t: Tid, job: Job, k: nat)
    requires AppliesFromTo(c, states, steps, i, j, t, job) && i <= k < j
    ensures LatestFollows(states[k].sh, steps[k], states[k + 1].sh)
  {
    hide Next, LatestFollows;
    GenerationStays(c, states, steps, i, j, t, job, k);
    GenerationStays(c, states, steps, i, j, t, job, k + 1);
    OnlyDeliveriesChangeLatest(c, states[k], steps[k], states[k + 1]);
  }

  lemma {:induction false} LatestIsHad(c: Params, states: seq<State>, steps: seq<Step>, i: nat, j: nat, t: Tid,
                                       job: Job, k: nat)
    requires AppliesFromTo(c, states, steps, i, j, t, job) && i <= k <= j
    ensures states[k].sh.haveLatest
    decreases k
  {
    hide Next;
    if k == i {
      SnapshotIsCurrent(c, states, steps, i, t, job);
    } else {
      LatestIsHad(c, states, steps, i, j, t, job, k - 1);
      LatestStepByStep(c, states, steps, i, j, t, job, k - 1);
    }
  }

  /**
   At the snapshot of an apply and again at its commit, runtime, latest configuration, device and
   generation are those of its job, and what it publishes is the latest configuration.  In
   between, runtime, device, published configuration and generation never change, and there is a
   latest configuration at every moment.
   */
  lemma CommitPublishesLatest(c: Params, states: seq<State>, steps: seq<Step>, i: nat, j: nat, t: Tid, job: Job, k: nat)
    requires AppliesFromTo(c, states, steps, i, j, t, job) && i <= k <= j
    ensures JobCurrent(states[i].sh, job) && JobCurrent(states[j].sh, job)
    ensures states[j + 1].sh.config == states[j + 1].sh.latestConfig == job.origin.cfg && states[j + 1].sh.haveLatest
    ensures var sh := states[k].sh;
            sh.runtime == Some(job.rt) && sh.device == job.oldDevice && sh.config == job.oldConfig &&
            sh.generation == job.origin.generation && sh.haveLatest
  {
    hide Next;
    SnapshotIsCurrent(c, states, steps, i, t, job);
    CommitIsCurrent(c, states, steps, j, t, job);
    LatestIsHad(c, states, steps, i, j, t, job, k);
    if k > i {
      CommitIsUndisturbed(c, states, steps, i + 1, j, t, job, k);
    }
  }

  lemma {:induction false} LatestStaysUpTo(c: Params, states: seq<State>, steps: seq<Step>, i: nat, j: nat, t: Tid,
                                           job: Job, k: nat)
    requires AppliesFromTo(c, states, steps, i, j, t, job) && i <= k <= j
    requires forall n :: i < n < j && DeliversAt(steps, n) ==> steps[n].ofCallback.cfg == job.origin.cfg
    ensures states[k].sh.latestConfig == job.origin.cfg
    decreases k
  {
    hide Next;
    if k == i {
      SnapshotIsCurrent(c, states, steps, i, t, job);
    } else {
      LatestStaysUpTo(c, states, steps, i, j, t, job, k - 1);
      LatestStepByStep(c, states, steps, i, j, t, job, k - 1);
      assert DeliversAt(steps, k - 1) ==> steps[k - 1].ofCallback.cfg == job.origin.cfg;
    }
  }

  /**
   The latest configuration is the one committed at every moment from the snapshot to the commit
   exactly if nothing else was delivered in between; see `LatestMayLeaveAndReturn` for a run where
   something was.
   */
  lemma LatestStaysExactly(c: Params, states: seq<State>, steps: seq<Step>, i: nat, j: nat, t: Tid, job: Job)
    requires AppliesFromTo(c, states, steps, i, j, t, job)
    ensures (forall k :: i <= k <= j ==> states[k].sh.latestConfig == job.origin.cfg)
            <==> forall k :: i < k < j && DeliversAt(steps, k) ==> steps[k].ofCallback.cfg == job.origin.cfg
  {
    hide Next;
    if forall k :: i < k < j && DeliversAt(steps, k) ==> steps[k].ofCallback.cfg == job.origin.cfg {
      forall k | i <= k <= j
        ensures states[k].sh.latestConfig == job.origin.cfg
      {
        LatestStaysUpTo(c, states, steps, i, j, t, job, k);
      }
    } else {
      var k :| i < k < j && DeliversAt(steps, k) && steps[k].ofCallback.cfg != job.origin.cfg;
      LatestStepByStep(c, states, steps, i, j, t, job, k);
      assert states[k + 1].sh.latestConfig != job.origin.cfg;
    }
  }

  // ----- from the snapshot of the caller -----

  /** Step `h` is the snapshot with which the configuration worker or a retry asks for the apply. */
  predicate AsksAt(states: seq<State>, steps: seq<Step>, h: nat, t: Tid, o: Origin) {
    && h < |steps| && h + 1 < |states|
    && (steps[h] == Callback(WorkerSnap(t)) || steps[h] == Ensure(RetryBegun(t)))
    && AtFree(states[h + 1], t, ApplyWait(o))
  }

  lemma AskingReadsGeneration(c: Params, states: seq<State>, steps: seq<Step>, h: nat, t: Tid, o: Origin)
    requires IsRun(c, states, steps) && AsksAt(states, steps, h, t, o)
    ensures states[h].sh.generation == o.generation && states[h].sh.haveLatest && states[h].sh.latestConfig == o.cfg
    ensures states[h].sh.runtime == o.rt
  {
    if steps[h].Callback? {
      assert NextWorkerSnap(states[h], t, states[h + 1]);
    } else {
      assert NextRetryBegun(states[h], t, states[h + 1]);
    }
  }

  lemma InvalidationBeginsGeneration(c: Params, s: State, of: CallbackStep, s': State)
    requires NextCallback(c, s, of, s') && of.NetworkInvalid?
    ensures s'.sh.generation == s.sh.generation + 1
  {
  }

  /**
   From the moment the caller took its snapshot, before the apply even waits for its lock, to the
   commit the generation is the same and no invalidation of the network happens: a configuration
   invalidated after that snapshot is never published.
   */
  lemma CommitExcludesEarlierInvalidation(c: Params, states: seq<State>, steps: seq<Step>, h: nat, j: nat, t: Tid,
                                          job: Job, k: nat)
    requires IsRun(c, states, steps) && AsksAt(states, steps, h, t, job.origin)
    requires CommitsAt(states, steps, j, t) && JobAt(states[j], t, job) && h <= k < j
    ensures states[k].sh.generation == states[k + 1].sh.generation == job.origin.generation
    ensures steps[k].Callback? ==> !steps[k].ofCallback.NetworkInvalid?
  {
    hide Next;
    AskingReadsGeneration(c, states, steps, h, t, job.origin);
    CommitIsCurrent(c, states, steps, j, t, job);
    GenerationGrows(c, states, steps, h, k);
    GenerationGrows(c, states, steps, k, k + 1);
    GenerationGrows(c, states, steps, k + 1, j);
    if steps[k].Callback? && steps[k].ofCallback.NetworkInvalid? {
      NextOfCallback(c, states[k], steps[k].ofCallback, states[k + 1]);
      InvalidationBeginsGeneration(c, states[k], steps[k].ofCallback, states[k + 1]);
    }
  }

  lemma NextOfCallback(c: Params, s: State, of: CallbackStep, s': State)
    ensures Next(c, s, Callback(of), s') <==> NextCallback(c, s, of, s')
  {
  }
}
