/** What the IP link carries, over every run. */
module ZeroTierLink {
  import opened Options
  import opened ZeroTierState
  import opened ZeroTierSteps
  import opened ZeroTierInvariant
  import opened ZeroTierTheorems

  /** A rollback that had something to restore and could not; the code only logs it. */
  predicate Spoils(c: Params, s: State, step: Step) {
    && step.Apply? && step.ofApply.RolledBack? && !step.ofApply.ok
    && InOp(s, step.ofApply.t) && s.threads[step.ofApply.t].pc.op.ApplyRollback?
    && Restorable(c, s.threads[step.ofApply.t].pc.op.job.oldConfig)
  }

  /** The configuration that was not committed and that such a rollback leaves behind. */
  function SpoiledBy(c: Params, s: State, step: Step): Config
    requires Spoils(c, s, step)
  {
    s.threads[step.ofApply.t].pc.op.job.origin.cfg
  }

  /** A rollback that restores, a commit, or the start of a new runtime. */
  predicate Mends(c: Params, s: State, step: Step) {
    || (step.Start? && step.ofStart.Built? && step.ofStart.ok)
    || (step.Apply? && InOp(s, step.ofApply.t)
        && match step.ofApply
           case RolledBack(t, ok) =>
             ok && s.threads[t].pc.op.ApplyRollback? && Restorable(c, s.threads[t].pc.op.job.oldConfig)
           case CommitDecided(t) => s.threads[t].pc.op.ApplyCommit? && JobCurrent(s.sh, s.threads[t].pc.op.job)
           case _ => false)
  }

  /** What a step does to the record of a failed rollback. */
  function LeftAfter(c: Params, s: State, step: Step): Option<Config> {
    if Spoils(c, s, step) then Some(SpoiledBy(c, s, step)) else if Mends(c, s, step) then None else s.world.leftOn
  }

  lemma ApplySpoilsOrMends(c: Params, s: State, of: ApplyStep, s': State)
    requires NextApply(c, s, of, s')
    ensures s'.world.leftOn == LeftAfter(c, s, Apply(of))
  {
  }

  lemma StartMends(c: Params, s: State, of: StartStep, s': State)
    requires NextStart(s, of, s')
    ensures s'.world.leftOn == LeftAfter(c, s, Start(of))
  {
  }

  lemma CallersSpoilNothing(c: Params, s: State, step: Step, s': State)
    requires Next(c, s, step, s') && (step.Callback? || step.Ensure? || step.Stack?)
    ensures s'.world.leftOn == s.world.leftOn
  {
  }

  lemma ClosersSpoilNothing(c: Params, s: State, step: Step, s': State)
    requires Next(c, s, step, s') && (step.Recover? || step.Close?)
    ensures s'.world.leftOn == s.world.leftOn
  {
  }

  lemma SpoilsOrMends(c: Params, s: State, step: Step, s': State)
    requires Next(c, s, step, s')
    ensures s'.world.leftOn == LeftAfter(c, s, step)
  {
    match step
    case Apply(of) => ApplySpoilsOrMends(c, s, of, s');
    case Start(of) => StartMends(c, s, of, s');
    case Recover(_) => ClosersSpoilNothing(c, s, step, s');
    case Close(_) => ClosersSpoilNothing(c, s, step, s');
    case _ => CallersSpoilNothing(c, s, step, s');
    hide Next, NextApply, NextStart;
  }

  /** Every rollback that failed before `i` was made good before `i`. */
  predicate Mended(c: Params, states: seq<State>, steps: seq<Step>, i: nat)
    requires |states| == |steps| + 1 && i < |states|
  {
    forall k :: 0 <= k < i && Spoils(c, states[k], steps[k]) ==> exists l :: k < l < i && Mends(c, states[l], steps[l])
  }

  /** The rollback at step `k` is the last one that failed before `i`, and it was not made good. */
  predicate LastSpoiled(c: Params, states: seq<State>, steps: seq<Step>, i: nat, k: nat)
    requires |states| == |steps| + 1 && i < |states|
  {
    && k < i && Spoils(c, states[k], steps[k])
    && forall l :: k < l < i ==> !Spoils(c, states[l], steps[l]) && !Mends(c, states[l], steps[l])
  }

  /** The link is left on another configuration exactly while a failed rollback has not been made good. */
  lemma {:induction false} LeftUntilMended(c: Params, states: seq<State>, steps: seq<Step>, i: nat)
    requires IsRun(c, states, steps) && i < |states|
    ensures states[i].world.leftOn.None? <==> Mended(c, states, steps, i)
  {
    hide Next, Spoils, Mends;
    if i > 0 {
      var k := i - 1;
      LeftUntilMended(c, states, steps, k);
      SpoilsOrMends(c, states[k], steps[k], states[i]);
      if !Spoils(c, states[k], steps[k]) && !Mends(c, states[k], steps[k]) && Mended(c, states, steps, i) {
        forall h | 0 <= h < k && Spoils(c, states[h], steps[h])
          ensures exists l :: h < l < k && Mends(c, states[l], steps[l])
        {
          var l :| h < l < i && Mends(c, states[l], steps[l]);
        }
      }
    }
  }

  /** And it is the one of the last such rollback. */
  lemma {:induction false} LeftByLast(c: Params, states: seq<State>, steps: seq<Step>, i: nat)
    requires IsRun(c, states, steps) && i < |states| && states[i].world.leftOn.Some?
    ensures exists k ::
              0 <= k < i && LastSpoiled(c, states, steps, i, k) &&
              states[i].world.leftOn == Some(SpoiledBy(c, states[k], steps[k]))
  {
    hide Next, Spoils, Mends, SpoiledBy;
    var j := i - 1;
    SpoilsOrMends(c, states[j], steps[j], states[i]);
    if Spoils(c, states[j], steps[j]) {
      assert LastSpoiled(c, states, steps, i, j);
    } else {
      LeftByLast(c, states, steps, j);
      var k :| 0 <= k < j && LastSpoiled(c, states, steps, j, k) &&
               states[j].world.leftOn == Some(SpoiledBy(c, states[k], steps[k]));
      assert LastSpoiled(c, states, steps, i, k);
    }
  }

  lemma OneLastSpoiled(c: Params, states: seq<State>, steps: seq<Step>, i: nat, j: nat, k: nat)
    requires |states| == |steps| + 1 && i < |states|
    requires LastSpoiled(c, states, steps, i, j) && LastSpoiled(c, states, steps, i, k)
    ensures j == k && !Mended(c, states, steps, i)
  {
    hide Spoils, Mends;
  }

  /** The last failed rollback, if it was not made good, had a configuration of the same effective form as `cfg`. */
  predicate SpoiledAlike(c: Params, states: seq<State>, steps: seq<Step>, i: nat, cfg: Config)
    requires |states| == |steps| + 1 && i < |states|
  {
    exists k :: 0 <= k < i && LastSpoiled(c, states, steps, i, k) &&
                Effective(c, SpoiledBy(c, states[k], steps[k])) == Effective(c, cfg)
  }

  /** No apply is between changing the link and its decision. */
  predicate LinkIsSettled(s: State) {
    forall t :: t in s.threads ==> !LinkInFlight(s.threads[t].pc)
  }

  lemma LinkConfigExactly(c: Params, states: seq<State>, steps: seq<Step>, i: nat)
    requires IsRun(c, states, steps) && i < |states|
    ensures Effective(c, LinkConfig(states[i])) == Effective(c, states[i].sh.config) <==>
            Mended(c, states, steps, i) || SpoiledAlike(c, states, steps, i, states[i].sh.config)
  {
    hide Next, Mended, SpoiledBy, Spoils, Mends, Effective;
    LeftUntilMended(c, states, steps, i);
    if states[i].world.leftOn.Some? {
      LeftByLast(c, states, steps, i);
      var k :| 0 <= k < i && LastSpoiled(c, states, steps, i, k) &&
               states[i].world.leftOn == Some(SpoiledBy(c, states[k], steps[k]));
      forall j | 0 <= j < i && LastSpoiled(c, states, steps, i, j)
        ensures j == k
      {
        OneLastSpoiled(c, states, steps, i, j, k);
      }
    } else {
      forall j | 0 <= j < i && LastSpoiled(c, states, steps, i, j)
        ensures false
      {
        OneLastSpoiled(c, states, steps, i, j, j);
      }
    }
  }

  /**
   Whenever a device is published and no apply is between changing the link and its decision, the
   link of the published runtime carries the effective form of the published configuration exactly
   if every failed rollback has been made good, or the last one that was not had a configuration of
   the same effective form.
   */
  lemma LinkCarriesExactly(c: Params, states: seq<State>, steps: seq<Step>, i: nat)
    requires IsRun(c, states, steps) && i < |states|
    requires states[i].sh.device.Some? && LinkIsSettled(states[i])
    ensures states[i].sh.runtime.Some?
    ensures LinkCarries(states[i].world, states[i].sh.runtime.value, Effective(c, states[i].sh.config)) <==>
            Mended(c, states, steps, i) || SpoiledAlike(c, states, steps, i, states[i].sh.config)
  {
    hide Next, Mended, SpoiledAlike, Effective;
    RunKeepsInv(c, states, steps, i);
    LinkConfigExactly(c, states, steps, i);
  }

  /** In particular without failed rollbacks, or once they have been made good. */
  lemma LinkCarriesPublishedConfig(c: Params, states: seq<State>, steps: seq<Step>, i: nat)
    requires IsRun(c, states, steps) && i < |states| && Mended(c, states, steps, i)
    requires states[i].sh.device.Some? && LinkIsSettled(states[i])
    ensures states[i].sh.runtime.Some?
    ensures LinkCarries(states[i].world, states[i].sh.runtime.value, Effective(c, states[i].sh.config))
  {
    hide Next, Mended;
    LinkCarriesExactly(c, states, steps, i);
  }

  /**
   A reader that passes its second check validated its destination on the published device, and
   against the published configuration exactly under the same condition.
   */
  lemma DestinationSeesPublishedConfig(c: Params, states: seq<State>, steps: seq<Step>, i: nat, t: Tid)
    requires IsRun(c, states, steps) && i < |states|
    requires InRead(states[i], t) && states[i].threads[t].pc.read.StackReady?
    ensures var pc, s := states[i].threads[t].pc.read, states[i];
            && s.sh.runtime == Some(pc.rt)
            && (s.sh.device.Some? ==>
                  && s.sh.device.value == pc.dev
                  && (pc.seen == Some(Effective(c, s.sh.config)) <==>
                      Mended(c, states, steps, i) || SpoiledAlike(c, states, steps, i, s.sh.config)))
  {
    hide Next, Mended, SpoiledAlike, Effective;
    RunKeepsInv(c, states, steps, i);
    LinkConfigExactly(c, states, steps, i);
  }
}
