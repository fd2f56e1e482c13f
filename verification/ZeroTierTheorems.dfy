/** What holds in every run of the ZeroTier outbound, for any number of goroutines and any interleaving. */
module ZeroTierTheorems {
  import opened Options
  import opened ZeroTierState
  import opened ZeroTierSteps
  import opened ZeroTierInvariant
  import opened ZeroTierPreservation

  /** `states` is what `steps` lead through from the initial state. */
  predicate IsRun(c: Params, states: seq<State>, steps: seq<Step>) {
    && |states| == |steps| + 1
    && states[0] == INITIAL
    && (forall i :: 0 <= i < |steps| ==> Next(c, states[i], steps[i], states[i + 1]))
  }

  lemma {:induction false} RunKeepsInv(c: Params, states: seq<State>, steps: seq<Step>, i: nat)
    requires IsRun(c, states, steps) && i < |states|
    ensures Inv(c, states[i])
  {
    hide Next; hide Inv;
    if i == 0 {
      InitialInv(c);
    } else {
      RunKeepsInv(c, states, steps, i - 1);
      StepKeepsInv(c, states[i - 1], steps[i - 1], states[i]);
    }
  }

  /**
   A published stack device was made for the published runtime with the addresses and the
   effective MTU of the published configuration, that configuration was delivered by the node of
   that runtime and not by an earlier one, and the published resolver belongs to it.
   */
  lemma PublishedDeviceBelongsToRuntime(c: Params, states: seq<State>, steps: seq<Step>, i: nat)
    requires IsRun(c, states, steps) && i < |states|
    requires states[i].sh.device.Some?
    ensures var sh, w := states[i].sh, states[i].world;
            && sh.runtime.Some?
            && StackIs(w, sh.device.value, StackFor(c, sh.runtime.value, sh.config))
            && (sh.runtime.value, sh.config) in w.delivered
            && (sh.resolver.Some? ==> sh.resolver.value == sh.config)
  {
    hide Next;
    RunKeepsInv(c, states, steps, i);
  }

  // ----- commits -----

  /** Goroutine `t` is between the snapshot and the decision of the apply that took `job`. */
  predicate JobAt(s: State, t: Tid, job: Job) {
    && InOp(s, t)
    && (|| s.threads[t].pc.op.ApplyPrepare? || s.threads[t].pc.op.ApplyStarted? || s.threads[t].pc.op.ApplyRecheck?
        || s.threads[t].pc.op.ApplyLink? || s.threads[t].pc.op.ApplyCommit? || s.threads[t].pc.op.ApplyRollback?)
    && s.threads[t].pc.op.job == job
  }

  /** Up to its decision an apply changes no field itself. */
  lemma OwnStepsChangeNothing(c: Params, s: State, step: ApplyStep, s': State, t: Tid, job: Job)
    requires NextApply(c, s, step, s') && step.t == t
    requires JobAt(s, t, job) && JobAt(s', t, job)
    ensures s'.sh == s.sh
  {
  }

  /** While it is in an apply, a goroutine takes no other steps. */
  lemma OwnStepsAreApply(c: Params, s: State, step: Step, s': State, t: Tid, job: Job)
    requires Next(c, s, step, s') && Actor(step) == t
    requires JobAt(s, t, job)
    ensures step.Apply?
  {
  }

  lemma JobStep(c: Params, s: State, step: Step, s': State, t: Tid, job: Job)
    requires Inv(c, s) && Next(c, s, step, s')
    requires JobAt(s, t, job) && JobAt(s', t, job)
    ensures s'.sh.device == s.sh.device || s'.sh.device.None?
  {
    StepRelies(c, s, step, s');
    if Actor(step) == t {
      OwnStepsAreApply(c, s, step, s', t, job);
      OwnStepsChangeNothing(c, s, step.ofApply, s', t, job);
    }
  }

  lemma {:induction false} GenerationGrows(c: Params, states: seq<State>, steps: seq<Step>, i: nat, j: nat)
    requires IsRun(c, states, steps) && i <= j < |states|
    ensures states[i].sh.generation <= states[j].sh.generation
    decreases j - i
  {
    hide Next; hide Inv;
    if i < j {
      RunKeepsInv(c, states, steps, i);
      StepRelies(c, states[i], steps[i], states[i + 1]);
      GenerationGrows(c, states, steps, i + 1, j);
    }
  }

  lemma {:induction false} DetachedStaysDetached(c: Params, states: seq<State>, steps: seq<Step>, i: nat, j: nat,
                                                 t: Tid, job: Job)
    requires IsRun(c, states, steps) && i <= j < |states|
    requires forall k :: i <= k <= j ==> JobAt(states[k], t, job)
    requires states[i].sh.device.None?
    ensures states[j].sh.device.None?
    decreases j - i
  {
    hide Next; hide Inv;
    if i < j {
      RunKeepsInv(c, states, steps, i);
      JobStep(c, states[i], steps[i], states[i + 1], t, job);
      DetachedStaysDetached(c, states, steps, i + 1, j, t, job);
    }
  }

  /** Step `j` of the run is the decision of `t`, and it publishes. */
  predicate CommitsAt(states: seq<State>, steps: seq<Step>, j: nat, t: Tid) {
    && j < |steps| && j + 1 < |states|
    && steps[j] == Apply(CommitDecided(t))
    && states[j + 1].sh.generation != states[j].sh.generation
  }

  /**
   An apply that commits was undisturbed: from its snapshot to its commit the runtime, the
   published device and configuration, and the generation were the same at every moment.
   */
  lemma CommitIsUndisturbed(c: Params, states: seq<State>, steps: seq<Step>, i: nat, j: nat, t: Tid, job: Job, k: nat)
    requires IsRun(c, states, steps) && i <= k <= j && CommitsAt(states, steps, j, t)
    requires forall n :: i <= n <= j ==> JobAt(states[n], t, job)
    ensures var sh := states[k].sh;
            sh.runtime == Some(job.rt) && sh.device == job.oldDevice && sh.config == job.oldConfig &&
            sh.generation == job.origin.generation
  {
    assert JobCurrent(states[j].sh, job) by {
      assert NextCommitDecided(states[j], t, states[j + 1]);
    }
    UndisturbedUpTo(c, states, steps, k, j, t, job);
  }

  lemma UndisturbedUpTo(c: Params, states: seq<State>, steps: seq<Step>, k: nat, j: nat, t: Tid, job: Job)
    requires IsRun(c, states, steps) && k <= j < |states|
    requires forall n :: k <= n <= j ==> JobAt(states[n], t, job)
    requires JobCurrent(states[j].sh, job)
    ensures var sh := states[k].sh;
            sh.runtime == Some(job.rt) && sh.device == job.oldDevice && sh.config == job.oldConfig &&
            sh.generation == job.origin.generation
  {
    hide Next;
    RunKeepsInv(c, states, steps, k);
    assert JobAt(states[k], t, job);
    GenerationGrows(c, states, steps, k, j);
    if states[k].sh.device.None? {
      DetachedStaysDetached(c, states, steps, k, j, t, job);
    }
  }

  /** Hence no invalidation of the network or of the device falls between the snapshot and the commit. */
  lemma CommitExcludesInvalidation(c: Params, states: seq<State>, steps: seq<Step>, i: nat, j: nat, t: Tid, job: Job,
                                   k: nat)
    requires IsRun(c, states, steps) && i <= k < j && CommitsAt(states, steps, j, t)
    requires forall n :: i <= n <= j ==> JobAt(states[n], t, job)
    ensures steps[k].Callback? ==> !steps[k].ofCallback.NetworkInvalid? && !steps[k].ofCallback.DeviceFailed?
  {
    CommitIsUndisturbed(c, states, steps, i, j, t, job, k);
    CommitIsUndisturbed(c, states, steps, i, j, t, job, k + 1);
  }

  // ----- resources -----

  /** No resource is closed twice, and none that is published or still owned has been closed. */
  lemma ClosedAtMostOnce(c: Params, states: seq<State>, steps: seq<Step>, i: nat, r: Resource)
    requires IsRun(c, states, steps) && i < |states|
    ensures r in states[i].world.closes ==> states[i].world.closes[r] <= 1
    ensures r in Published(states[i].sh) ==> r in states[i].world.closes && states[i].world.closes[r] == 0
  {
    hide Next;
    RunKeepsInv(c, states, steps, i);
  }

  /** When no goroutine is left, every resource ever created is either the published one or closed exactly once. */
  lemma QuiescenceLeaksNothing(c: Params, states: seq<State>, steps: seq<Step>, i: nat, r: Resource)
    requires IsRun(c, states, steps) && i < |states|
    requires states[i].threads == map[]
    requires r in states[i].world.closes
    ensures (states[i].world.closes[r] == 1) == (r !in Published(states[i].sh))
  {
    hide Next;
    RunKeepsInv(c, states, steps, i);
    assert forall t :: OwnedBy(states[i], t) == {};
  }

  // ----- Close -----

  lemma {:induction false} ClosedForever(c: Params, states: seq<State>, steps: seq<Step>, i: nat, j: nat)
    requires IsRun(c, states, steps) && i <= j < |states|
    requires states[i].sh.closed
    ensures states[j].sh.closed
    decreases j - i
  {
    hide Next; hide Inv;
    if i < j {
      RunKeepsInv(c, states, steps, i);
      StepRelies(c, states[i], steps[i], states[i + 1]);
      ClosedForever(c, states, steps, i + 1, j);
    }
  }

  /** After `Close` has detached, nothing is published again and every caller keeps getting the closed error. */
  lemma CloseIsFinal(c: Params, states: seq<State>, steps: seq<Step>, i: nat, j: nat)
    requires IsRun(c, states, steps) && i <= j < |states|
    requires states[i].sh.closed
    ensures states[j].sh.runtime.None? && states[j].sh.device.None? && states[j].sh.resolver.None?
    ensures states[j].sh.networkErr == Some(Closed)
  {
    hide Next;
    ClosedForever(c, states, steps, i, j);
    RunKeepsInv(c, states, steps, j);
  }

  // ----- wake-ups -----

  /** A step that ends the waiting condition replaces the channel, and so closes the one waiters captured. */
  lemma WakeupReplacesChannel(c: Params, states: seq<State>, steps: seq<Step>, i: nat)
    requires IsRun(c, states, steps) && i < |steps|
    requires Waiting(states[i].sh) && !Waiting(states[i + 1].sh)
    ensures states[i].sh.stateCh < states[i + 1].sh.stateCh
  {
    hide Next; hide Inv;
    RunKeepsInv(c, states, steps, i);
    StepRelies(c, states[i], steps[i], states[i + 1]);
  }

  /** A sleeping goroutine whose reason to sleep is gone can always wake up. */
  lemma NoLostWakeup(c: Params, states: seq<State>, steps: seq<Step>, i: nat, t: Tid)
    requires IsRun(c, states, steps) && i < |states|
    requires InFree(states[i], t) && states[i].threads[t].pc.free.EnsureWait?
    requires !Waiting(states[i].sh)
    ensures exists s' :: Next(c, states[i], Ensure(Woken(t, false)), s')
  {
    RunKeepsInv(c, states, steps, i);
    var s := states[i];
    assert ThreadOk(c, s.sh, s.world, s.threads[t]);
    var s' := if s.sh.ctxDone then Exit(s, t) else Goto(s, t, Free(EnsureLoop));
    assert NextWoken(s, t, false, s');
    assert NextEnsure(s, Woken(t, false), s');
    assert Next(c, s, Ensure(Woken(t, false)), s');
  }

  // ----- exclusion -----

  /** Writers of `operationMu` exclude each other and the readers. */
  lemma WritersExclude(c: Params, states: seq<State>, steps: seq<Step>, i: nat, t: Tid, u: Tid)
    requires IsRun(c, states, steps) && i < |states|
    requires InOp(states[i], t)
    ensures InOp(states[i], u) ==> u == t
    ensures !InRead(states[i], u)
  {
    hide Next;
    RunKeepsInv(c, states, steps, i);
  }

  /** `networkRetrying` is set exactly while one goroutine, and only one, is inside `retryNetwork`. */
  lemma OneRetryAtATime(c: Params, states: seq<State>, steps: seq<Step>, i: nat)
    requires IsRun(c, states, steps) && i < |states|
    ensures states[i].sh.retrying <==> exists t :: Retries(states[i], t)
    ensures forall t, u :: Retries(states[i], t) && Retries(states[i], u) ==> t == u
  {
    hide Next;
    RunKeepsInv(c, states, steps, i);
  }
}
