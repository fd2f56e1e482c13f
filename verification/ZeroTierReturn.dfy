/**
 A run in which the latest configuration leaves and returns during an apply: while the
 configuration `HOME` is being applied, `AWAY` is delivered and then `HOME` again, and the apply
 commits.
 */
module ZeroTierReturn {
  import opened Options
  import opened ZeroTierState
  import opened ZeroTierSteps
  import opened ZeroTierTheorems
  import opened ZeroTierCommits

  const PARAMS := Params(7, 0, 1280, 2800, 10000, false)
  const HOME := Config(7, [1], 2800, 0)
  const AWAY := Config(7, [2], 2800, 0)

  const ORIGIN := Origin(Some(0), HOME, true, 1)
  const JOB := Job(ORIGIN, 0, None, ZERO_CONFIG, false)

  // Goroutine 1 starts the runtime.
  const S1 := Begin(INITIAL, 1, EnsureStart)
  const S2 := Acquire(S1, 1, StartBuild(FromEnsure))
  const S3 := Goto(S2.(sh := PublishRuntime(S2.sh, 0), world := CreateRuntime(S2.world, 0)), 1,
                   Op(StartJoin(FromEnsure, 0)))
  const S4 := Release(S3, 1, EnsureRetry)

  // HOME is delivered, and goroutine 3 takes it up.
  const S5 := Delivered(S4, HOME, 2)
  const S6 := Exit(S5.(configCh := true), 2)
  const S7 := Begin(S6.(configCh := false), 3, WorkerSnapshot)
  const S8 := Goto(S7, 3, Free(ApplyWait(ORIGIN)))
  const S9 := Acquire(S8, 3, ApplySnapshot(ORIGIN))
  const S10 := Goto(S9, 3, Op(ApplyPrepare(JOB)))

  // AWAY comes and HOME comes back.
  const S11 := Delivered(S10, AWAY, 4)
  const S12 := Delivered(S11, HOME, 5)

  // The apply goes on and commits.
  const S13 := Goto(S12.(world := CreateDevice(S12.world, 0, StackFor(PARAMS, 0, HOME))), 3, Op(ApplyStarted(JOB, 0)))
  const S14 := Goto(S13, 3, Op(ApplyRecheck(JOB, 0, true)))
  const S15 := Goto(S14, 3, Op(ApplyLink(JOB, 0, true)))
  const S16 := Goto(S15.(world := S15.world.(link := S15.world.link[0 := Effective(PARAMS, HOME)])), 3,
                    Op(ApplyCommit(JOB, 0, true)))
  const S17 := Goto(S16.(sh := CommitConfig(S16.sh, HOME, 0, false), world := S16.world.(leftOn := None)), 3,
                    Op(ApplyReturn(ORIGIN, Applied)))

  function Delivered(s: State, cfg: Config, t: Tid): State {
    Begin(s.(sh := EnqueueConfig(s.sh, 0, cfg), world := s.world.(delivered := s.world.delivered + {(0, cfg)})),
          t, SendToken)
  }

  const STATES := [INITIAL, S1, S2, S3, S4, S5, S6, S7, S8, S9, S10, S11, S12, S13, S14, S15, S16, S17]

  const STEPS := [
    Callback(Spawn(1, EnsureStart)),
    Start(StartEnter(1, 0)),
    Start(Built(1, true, 0)),
    Start(Joined(1, true)),
    Callback(Deliver(0, HOME, 2)),
    Callback(TokenSent(2)),
    Callback(Receive(3)),
    Callback(WorkerSnap(3)),
    Apply(ApplyEnter(3)),
    Apply(ApplySnapped(3, false)),
    Callback(Deliver(0, AWAY, 4)),
    Callback(Deliver(0, HOME, 5)),
    Apply(Prepared(3, Ready, 0)),
    Apply(StartedChecked(3)),
    Apply(Rechecked(3)),
    Apply(LinkApplied(3, true)),
    Apply(CommitDecided(3))
  ]

  lemma Spawns()
    ensures Next(PARAMS, INITIAL, STEPS[0], S1)
  {
  }

  lemma Enters()
    ensures Next(PARAMS, S1, STEPS[1], S2)
  {
  }

  lemma Builds()
    ensures Next(PARAMS, S2, STEPS[2], S3)
  {
  }

  lemma Joins()
    ensures Next(PARAMS, S3, STEPS[3], S4)
  {
  }

  lemma DeliversHome()
    ensures Next(PARAMS, S4, STEPS[4], S5)
  {
  }

  lemma SendsToken()
    ensures Next(PARAMS, S5, STEPS[5], S6)
  {
  }

  lemma WakesWorker()
    ensures Next(PARAMS, S6, STEPS[6], S7)
  {
  }

  lemma WorkerSnaps()
    ensures Next(PARAMS, S7, STEPS[7], S8)
  {
  }

  lemma Acquires()
    ensures Next(PARAMS, S8, STEPS[8], S9)
  {
  }

  lemma Snaps()
    ensures Next(PARAMS, S9, STEPS[9], S10)
  {
  }

  lemma DeliversAway()
    ensures Next(PARAMS, S10, STEPS[10], S11)
  {
  }

  lemma DeliversHomeAgain()
    ensures Next(PARAMS, S11, STEPS[11], S12)
  {
  }

  lemma Prepares()
    ensures Next(PARAMS, S12, STEPS[12], S13)
  {
  }

  /** Nothing but the goroutine's place changes after `HOME` has come back. */
  lemma HomeIsCurrentAgain()
    ensures S13.sh == S14.sh == S16.sh && JobCurrent(S16.sh, JOB) && S16.sh.device.None? && !S16.sh.ctxDone
  {
  }

  lemma ChecksStart()
    ensures Next(PARAMS, S13, STEPS[13], S14)
  {
    HomeIsCurrentAgain();
    hide PublishRuntime, EnqueueConfig, CreateRuntime, CreateDevice, Begin, Acquire, Release, Exit, Delivered;
  }

  lemma Rechecks()
    ensures Next(PARAMS, S14, STEPS[14], S15)
  {
    HomeIsCurrentAgain();
    hide JobCurrent, PublishRuntime, EnqueueConfig, CreateRuntime, CreateDevice, Begin, Acquire, Release, Exit,
         Delivered;
  }

  lemma ChangesLink()
    ensures Next(PARAMS, S15, STEPS[15], S16)
  {
  }

  lemma Commits()
    ensures Next(PARAMS, S16, STEPS[16], S17)
  {
    HomeIsCurrentAgain();
    hide JobCurrent, PublishRuntime, EnqueueConfig, CommitConfig, CreateRuntime, CreateDevice, Effective, Begin,
         Acquire, Release, Exit, Delivered;
  }

  lemma IsARun()
    ensures IsRun(PARAMS, STATES, STEPS)
  {
    hide Next, Begin, Goto, Exit, Acquire, Release, Delivered, PublishRuntime, CommitConfig, CreateDevice;
    Spawns();
    Enters();
    Builds();
    Joins();
    DeliversHome();
    SendsToken();
    WakesWorker();
    WorkerSnaps();
    Acquires();
    Snaps();
    DeliversAway();
    DeliversHomeAgain();
    Prepares();
    ChecksStart();
    Rechecks();
    ChangesLink();
    Commits();
  }

  lemma JobIsHeld()
    ensures JobAt(S10, 3, JOB) && JobAt(S11, 3, JOB) && JobAt(S12, 3, JOB) && JobAt(S13, 3, JOB)
    ensures JobAt(S14, 3, JOB) && JobAt(S15, 3, JOB) && JobAt(S16, 3, JOB)
  {
  }

  lemma GenerationEnds()
    ensures S17.sh.generation == S16.sh.generation + 1
  {
  }

  lemma AwayIsLatest()
    ensures S11.sh.latestConfig == AWAY != HOME
  {
  }

  /** The apply of `HOME` commits although `HOME` was not the latest configuration all the time. */
  lemma LatestMayLeaveAndReturn()
    ensures AppliesFromTo(PARAMS, STATES, STEPS, 9, 16, 3, JOB)
    ensures STATES[11].sh.latestConfig == AWAY != JOB.origin.cfg
  {
    hide Next, JobAt, IsRun, Begin, Goto, Exit, Acquire, Release, Delivered, PublishRuntime, CommitConfig, CreateDevice;
    IsARun();
    JobIsHeld();
    GenerationEnds();
    AwayIsLatest();
  }
}
