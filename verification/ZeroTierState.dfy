/**
 The mutable fields of the ZeroTier outbound and the critical sections that change them.

 Every function below is one stretch of code that the source runs while holding `stateMu`
 (or while holding `operationMu`, for `closed` and the collision deadline).  The node, the IP
 link and the stack device are kept as identities; what the outbound did to them is recorded
 in `World`.
 */
module ZeroTierState {
  import opened Options

  type RuntimeId = nat
  type DeviceId = nat

  /** The parts of a network configuration that the protocol inspects; `rest` stands for all others. */
  datatype Config = Config(networkID: nat, addresses: seq<nat>, mtu: nat, rest: nat)

  const ZERO_CONFIG := Config(0, [], 0, 0)

  /** Seconds before a configured identity may be tried again after a collision. */
  const COLLISION_RETRY_INTERVAL := 30

  /** What does not change while the outbound lives. */
  datatype Params = Params(networkID: nat, optionMTU: nat, minMTU: nat, defaultMTU: nat, maxMTU: nat,
                           configuredIdentity: bool)

  datatype Error = Closed | NotStarted | NoAddresses | Collision | Other(text: string)

  /** Something the outbound creates and must close exactly once. */
  datatype Resource = Runtime(rt: RuntimeId) | Device(dev: DeviceId)

  /** The fields guarded by `stateMu`, with `closed` and `retryAt` that `operationMu` guards. */
  datatype Shared = Shared(
    ctxDone: bool,
    closed: bool,
    retryAt: Option<int>,
    runtime: Option<RuntimeId>,
    config: Config,
    device: Option<DeviceId>,
    resolver: Option<Config>,
    networkErr: Option<Error>,
    stateCh: nat,
    latestConfig: Config,
    haveLatest: bool,
    retryLatest: bool,
    retrying: bool,
    generation: nat)

  /** What a stack device was created with, and the runtime it was created for. */
  datatype Making = Making(rt: RuntimeId, addresses: seq<nat>, mtu: nat)

  /**
   The outside objects: the configurations each node delivered, the configuration each IP link
   carries, the one that a failed rollback left the link on, how every device was made, and how
   often every resource was closed.
   */
  datatype World = World(
    delivered: set<(RuntimeId, Config)>,
    link: map<RuntimeId, Config>,
    leftOn: Option<Config>,
    stacks: map<DeviceId, Making>,
    closes: map<Resource, nat>)

  const INITIAL_SHARED :=
    Shared(false, false, None, None, ZERO_CONFIG, None, None, None, 0, ZERO_CONFIG, false, false, false, 0)

  const INITIAL_WORLD := World({}, map[], None, map[], map[])

  function EffectiveMTU(c: Params, cfg: Config): nat {
    var mtu := if cfg.mtu == 0 then c.defaultMTU
               else if cfg.mtu < c.minMTU then c.minMTU
               else if cfg.mtu > c.maxMTU then c.maxMTU
               else cfg.mtu;
    if c.optionMTU != 0 && c.optionMTU < mtu then c.optionMTU else mtu
  }

  /** The form of a configuration that is handed to the IP link. */
  function Effective(c: Params, cfg: Config): Config {
    cfg.(mtu := EffectiveMTU(c, cfg))
  }

  /** A configuration that a rollback can restore. */
  predicate Restorable(c: Params, cfg: Config) {
    cfg.networkID == c.networkID && |cfg.addresses| != 0
  }

  /** Whether applying `cfg` over the old state needs a new stack device. */
  predicate NeedsDevice(c: Params, oldDevice: Option<DeviceId>, oldConfig: Config, cfg: Config) {
    oldDevice.None? || oldConfig.addresses != cfg.addresses || EffectiveMTU(c, oldConfig) != EffectiveMTU(c, cfg)
  }

  function RuntimeResource(sh: Shared): set<Resource> {
    if sh.runtime.Some? then {Runtime(sh.runtime.value)} else {}
  }

  function DeviceResource(sh: Shared): set<Resource> {
    if sh.device.Some? then {Device(sh.device.value)} else {}
  }

  /** The resources other goroutines can see. */
  function Published(sh: Shared): set<Resource> {
    RuntimeResource(sh) + DeviceResource(sh)
  }

  /** The condition under which `ensureStarted` goes to sleep. */
  predicate Waiting(sh: Shared) {
    sh.device.None? && sh.networkErr.None?
  }

  // ----- critical sections -----

  function Notify(sh: Shared): Shared {
    sh.(stateCh := sh.stateCh + 1)
  }

  function DetachStack(sh: Shared): Shared {
    sh.(device := None, resolver := None)
  }

  function DetachRuntime(sh: Shared): Shared {
    DetachStack(sh).(runtime := None)
  }

  function ResetNetworkState(sh: Shared, err: Option<Error>): Shared {
    Notify(sh.(config := ZERO_CONFIG, latestConfig := ZERO_CONFIG, haveLatest := false, retryLatest := false,
               networkErr := err, generation := sh.generation + 1))
  }

  function SetNetworkFailure(sh: Shared, err: Option<Error>, retry: bool): Shared {
    Notify(sh.(networkErr := err, retryLatest := retry && sh.haveLatest))
  }

  function PublishRuntime(sh: Shared, rt: RuntimeId): Shared {
    ResetNetworkState(sh.(runtime := Some(rt)), None)
  }

  /** The cleanup of a start that failed after its runtime was published. */
  function UnpublishRuntime(sh: Shared, rt: RuntimeId): Shared {
    if sh.runtime == Some(rt) then sh.(runtime := None) else sh
  }

  function EnqueueConfig(sh: Shared, source: RuntimeId, cfg: Config): Shared {
    if sh.ctxDone || sh.runtime != Some(source) then sh else sh.(latestConfig := cfg, haveLatest := true)
  }

  predicate SnapshotCurrent(sh: Shared, rt: Option<RuntimeId>, cfg: Config, have: bool, generation: nat) {
    sh.generation == generation && sh.runtime == rt && sh.haveLatest == have && (have ==> sh.latestConfig == cfg)
  }

  /** `retryNetwork` starts only when there is something to retry and nobody else is at it. */
  predicate MayRetry(sh: Shared) {
    !sh.ctxDone && !(sh.device.Some? && sh.networkErr.None?) && !sh.retrying
  }

  function BeginRetry(sh: Shared): Shared {
    if MayRetry(sh) then sh.(retrying := true, networkErr := None) else sh
  }

  function RecordFailure(sh: Shared, rt: Option<RuntimeId>, cfg: Config, have: bool, generation: nat,
                         err: Error, retry: bool): Shared {
    if !sh.ctxDone && SnapshotCurrent(sh, rt, cfg, have, generation)
    then SetNetworkFailure(sh, Some(err), retry)
    else sh
  }

  predicate MayInvalidateNetwork(sh: Shared, source: Option<RuntimeId>) {
    !sh.ctxDone && (source.Some? ==> sh.runtime == source)
  }

  /** Unless the configuration may be retried it is forgotten. */
  function InvalidateNetwork(sh: Shared, source: Option<RuntimeId>, err: Option<Error>, retry: bool): Shared {
    if MayInvalidateNetwork(sh, source)
    then SetNetworkFailure(
           DetachStack(sh).(latestConfig := if retry then sh.latestConfig else ZERO_CONFIG,
                            haveLatest := retry && sh.haveLatest, generation := sh.generation + 1),
           err, retry)
    else sh
  }

  predicate MayInvalidateDevice(sh: Shared, dev: DeviceId) {
    !sh.ctxDone && sh.device == Some(dev)
  }

  function InvalidateDevice(sh: Shared, dev: DeviceId, err: Error): Shared {
    if MayInvalidateDevice(sh, dev)
    then SetNetworkFailure(DetachStack(sh), Some(err), true)
    else sh
  }

  predicate MayCommit(sh: Shared, rt: RuntimeId, oldDevice: Option<DeviceId>, cfg: Config, generation: nat) {
    sh.device == oldDevice && SnapshotCurrent(sh, Some(rt), cfg, true, generation)
  }

  function CommitConfig(sh: Shared, cfg: Config, dev: DeviceId, resolver: bool): Shared {
    Notify(sh.(config := cfg, device := Some(dev), resolver := if resolver then Some(cfg) else None,
               networkErr := None, retryLatest := false, generation := sh.generation + 1))
  }

  function DetachCollided(c: Params, sh: Shared, now: int): Shared {
    var err := if c.configuredIdentity then Some(Collision) else None;
    var retryAt := if c.configuredIdentity then Some(now + COLLISION_RETRY_INTERVAL) else sh.retryAt;
    ResetNetworkState(DetachRuntime(sh).(retryAt := retryAt), err)
  }

  function CloseOutbound(sh: Shared): Shared {
    ResetNetworkState(DetachRuntime(sh).(closed := true), Some(Closed))
  }

  /** What `startLocked` decides before it builds anything. */
  datatype StartVerdict = Refused | Backoff | Running | Proceed

  function StartCheck(sh: Shared, now: int): StartVerdict {
    if sh.closed || sh.ctxDone then Refused
    else if sh.retryAt.Some? && now < sh.retryAt.value then Backoff
    else if sh.runtime.Some? then Running
    else Proceed
  }

  /** `startLocked` forgets an elapsed deadline. */
  function StartForgets(sh: Shared, now: int): Shared {
    if StartCheck(sh, now) in {Running, Proceed} then sh.(retryAt := None) else sh
  }
}
