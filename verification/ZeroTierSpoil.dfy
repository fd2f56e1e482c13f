/**
 A run in which a failed rollback leaves the link on a configuration that was never committed.

 It goes on where `ZeroTierReturn` ends: `HOME` is published.  `AWAY` is delivered and applied up to
 the change of the link; `HOME` is delivered again, so the apply is stale, and its rollback fails.
 */
module ZeroTierSpoil {
  import opened Options
  import opened ZeroTierState
  import opened ZeroTierSteps
  import opened ZeroTierInvariant
  import opened ZeroTierTheorems
  import opened ZeroTierReturn
  import opened ZeroTierLink

  // ----- the state in which `HOME` is published -----

  const FIELDS := Shared(false, false, None, Some(0), HOME, Some(0), None, None, 2, HOME, true, false, false, 2)

  const OUTSIDE := World({(0, HOME), (0, AWAY)}, map[0 := HOME], None, map[0 := Making(0, [1], 2800)],
                         map[Runtime(0) := 0, Device(0) := 0])

  const T0 := State(FIELDS, OUTSIDE, None, {}, false,
                    map[1 := Thread(Free(EnsureRetry), false), 4 := Thread(Free(SendToken), false),
                        5 := Thread(Free(SendToken), false)])

  // ----- `AWAY` is delivered and taken up by goroutine 7 -----

  const ORIGIN2 := Origin(Some(0), AWAY, true, 2)
  const JOB2 := Job(ORIGIN2, 0, Some(0), HOME, false)

  const T1 := Exit(T0.(configCh := true), 4)
  const T2 := Delivered(T1, AWAY, 6)
  const T3 := Begin(T2.(configCh := false), 7, WorkerSnapshot)
  const T4 := Goto(T3, 7, Free(ApplyWait(ORIGIN2)))
  const T5 := Acquire(T4, 7, ApplySnapshot(ORIGIN2))
  const T6 := Goto(T5, 7, Op(ApplyPrepare(JOB2)))
  const T7 := Goto(T6.(world := CreateDevice(T6.world, 1, StackFor(PARAMS, 0, AWAY))), 7, Op(ApplyStarted(JOB2, 1)))
  const T8 := Goto(T7, 7, Op(ApplyRecheck(JOB2, 1, true)))
  const T9 := Goto(T8, 7, Op(ApplyLink(JOB2, 1, true)))
  const T10 := Goto(T9.(world := T9.world.(link := T9.world.link[0 := Effective(PARAMS, AWAY)])), 7,
                    Op(ApplyCommit(JOB2, 1, true)))

  // ----- `HOME` comes back, and the rollback fails -----

  const T11 := Delivered(T10, HOME, 8)
  const T12 := Goto(T11, 7, Op(ApplyRollback(JOB2, 1, true)))
  const T13 := Goto(T12.(world := T12.world.(leftOn := Some(AWAY))), 7, Op(ApplyClose(ORIGIN2, 1, Stale)))

  const MORE_STATES := [T0, T1, T2, T3, T4, T5, T6, T7, T8, T9, T10, T11, T12, T13]

  const MORE_STEPS := [
    Apply(ApplyReturned(3)),
    Callback(TokenSent(4)),
    Callback(Deliver(0, AWAY, 6)),
    Callback(Receive(7)),
    Callback(WorkerSnap(7)),
    Apply(ApplyEnter(7)),
    Apply(ApplySnapped(7, false)),
    Apply(Prepared(7, Ready, 1)),
    Apply(StartedChecked(7)),
    Apply(Rechecked(7)),
    Apply(LinkApplied(7, true)),
    Callback(Deliver(0, HOME, 8)),
    Apply(CommitDecided(7)),
    Apply(RolledBack(7, false))
  ]

  lemma HomeFields()
    ensures S17.sh == FIELDS
  {
  }

  lemma HomeWorld()
    ensures S17.world == OUTSIDE
  {
    assert S17.world.closes == OUTSIDE.closes && S17.world.stacks == OUTSIDE.stacks;
  }

  lemma HomeThreads()
    ensures 3 in S17.threads && S17.threads[3] == Thread(Op(ApplyReturn(ORIGIN, Applied)), false)
    ensures S17.threads - {3} == T0.threads
  {
  }

  lemma HomeRest()
    ensures S17.readers == {} && !S17.configCh
  {
  }

  lemma HomeIsPublished()
    ensures Next(PARAMS, S17, MORE_STEPS[0], T0)
  {
    HomeFields();
    HomeWorld();
    HomeThreads();
    HomeRest();
    hide PublishRuntime, EnqueueConfig, CommitConfig, CreateRuntime, CreateDevice, Begin, Goto, Acquire, Release,
         Delivered;
  }

  lemma SendsToken()
    ensures Next(PARAMS, T0, MORE_STEPS[1], T1)
  {
  }

  lemma DeliversAway()
    ensures Next(PARAMS, T1, MORE_STEPS[2], T2)
  {
  }

  lemma WakesWorker()
    ensures Next(PARAMS, T2, MORE_STEPS[3], T3)
  {
  }

  lemma WorkerSnaps()
    ensures Next(PARAMS, T3, MORE_STEPS[4], T4)
  {
  }

  lemma Acquires()
    ensures Next(PARAMS, T4, MORE_STEPS[5], T5)
  {
  }

  lemma Snaps()
    ensures Next(PARAMS, T5, MORE_STEPS[6], T6)
  {
  }

  lemma Prepares()
    ensures Next(PARAMS, T6, MORE_STEPS[7], T7)
  {
  }

  lemma ChecksStart()
    ensures Next(PARAMS, T7, MORE_STEPS[8], T8)
  {
  }

  lemma Rechecks()
    ensures Next(PARAMS, T8, MORE_STEPS[9], T9)
  {
  }

  lemma ChangesLink()
    ensures Next(PARAMS, T9, MORE_STEPS[10], T10)
  {
  }

  lemma DeliversHome()
    ensures Next(PARAMS, T10, MORE_STEPS[11], T11)
  {
  }

  lemma GivesUp()
    ensures Next(PARAMS, T11, MORE_STEPS[12], T12)
  {
  }

  lemma FailsToRestore()
    ensures Next(PARAMS, T12, MORE_STEPS[13], T13)
  {
  }

  predicate GoesOn(c: Params, from: State, more: seq<State>, moreSteps: seq<Step>) {
    && |more| == |moreSteps|
    && forall k :: 0 <= k < |more| ==> Next(c, ([from] + more)[k], moreSteps[k], more[k])
  }

  lemma RunsJoin(c: Params, states: seq<State>, steps: seq<Step>, more: seq<State>, moreSteps: seq<Step>)
    requires IsRun(c, states, steps) && GoesOn(c, states[|steps|], more, moreSteps)
    ensures IsRun(c, states + more, steps + moreSteps)
  {
    hide Next;
    var allStates, allSteps := states + more, steps + moreSteps;
    forall i | 0 <= i < |allSteps|
      ensures Next(c, allStates[i], allSteps[i], allStates[i + 1])
    {
      if i >= |steps| {
        var k := i - |steps|;
        assert Next(c, ([states[|steps|]] + more)[k], moreSteps[k], more[k]);
        assert allStates[i] == ([states[|steps|]] + more)[k];
      }
    }
  }

  lemma IsALongerRun()
    ensures IsRun(PARAMS, STATES + MORE_STATES, STEPS + MORE_STEPS)
  {
    hide Next, IsRun, Begin, Goto, Exit, Acquire, Delivered, CommitConfig, CreateDevice;
    IsARun();
    HomeIsPublished();
    SendsToken();
    DeliversAway();
    WakesWorker();
    WorkerSnaps();
    Acquires();
    Snaps();
    Prepares();
    ChecksStart();
    Rechecks();
    ChangesLink();
    DeliversHome();
    GivesUp();
    FailsToRestore();
    RunsJoin(PARAMS, STATES, STEPS, MORE_STATES, MORE_STEPS);
  }

  lemma EndsLeft()
    ensures T13.sh.device.Some? && LinkIsSettled(T13)
    ensures T13.sh.runtime == Some(0) && T13.sh.config == HOME && T13.world.link[0] == Effective(PARAMS, AWAY)
  {
  }

  /** A device is published, no apply is half done, and the link does not carry the published configuration. */
  lemma LinkMayBeLeft()
    ensures var states, steps := STATES + MORE_STATES, STEPS + MORE_STEPS;
      && IsRun(PARAMS, states, steps) && states[31] == T13
      && T13.sh.device.Some? && LinkIsSettled(T13)
      && T13.sh.runtime == Some(0) && !LinkCarries(T13.world, 0, Effective(PARAMS, T13.sh.config))
  {
    hide IsRun, LinkIsSettled, Begin, Goto, Exit, Acquire, Delivered, CreateDevice, CommitConfig, PublishRuntime;
    IsALongerRun();
    EndsLeft();
  }
}
