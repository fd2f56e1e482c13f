/** The ZeroTier outbound as an object: its fields, and its critical sections as methods that update them. */
module ZeroTierFields {
  import opened Options
  import opened ZeroTierState

  class ZeroTier {
    const params: Params
    var ctxDone: bool
    var closed: bool
    var retryAt: Option<int>
    var runtime: Option<RuntimeId>
    var config: Config
    var device: Option<DeviceId>
    var resolver: Option<Config>
    var networkErr: Option<Error>
    var stateCh: nat
    var latestConfig: Config
    var haveLatest: bool
    var retryLatest: bool
    var retrying: bool
    var generation: nat

    /** Where to log in, and the failure last logged; nothing else depends on these two. */
    var authURL: string
    var loggedFailure: string

    /** The fields as the value that the transition system works on. */
    function View(): Shared
      reads this
    {
      Shared(ctxDone, closed, retryAt, runtime, config, device, resolver, networkErr, stateCh, latestConfig, haveLatest,
             retryLatest, retrying, generation)
    }

    constructor (params: Params)
      ensures this.params == params && View() == INITIAL_SHARED && authURL == "" && loggedFailure == ""
    {
      this.params := params;
      ctxDone, closed, retryAt := false, false, None;
      runtime, config, device, resolver, networkErr := None, ZERO_CONFIG, None, None, None;
      stateCh, latestConfig, haveLatest, retryLatest, retrying := 0, ZERO_CONFIG, false, false, false;
      generation, authURL, loggedFailure := 0, "", "";
    }

    /** Closes the current channel and makes a new one. */
    method NotifyStateLocked()
      modifies `stateCh
      ensures stateCh == old(stateCh) + 1
    {
      stateCh := stateCh + 1;
    }

    method DetachStackLocked() returns (detached: Option<DeviceId>)
      modifies `device, `resolver
      ensures detached == old(device) && device.None? && resolver.None?
    {
      detached := device;
      device := None;
      resolver := None;
    }

    method DetachRuntimeLocked() returns (oldRuntime: Option<RuntimeId>, detached: Option<DeviceId>)
      modifies `runtime, `device, `resolver
      ensures oldRuntime == old(runtime) && detached == old(device)
      ensures runtime.None? && device.None? && resolver.None?
    {
      oldRuntime := runtime;
      detached := DetachStackLocked();
      runtime := None;
    }

    /** The first four assignments of `resetNetworkStateLocked`. */
    method ForgetConfigs()
      modifies `config, `latestConfig, `haveLatest, `retryLatest
      ensures config == latestConfig == ZERO_CONFIG && !haveLatest && !retryLatest
    {
      config, latestConfig, haveLatest, retryLatest := ZERO_CONFIG, ZERO_CONFIG, false, false;
    }

    method ResetNetworkStateLocked(err: Option<Error>)
      modifies `config, `latestConfig, `haveLatest, `retryLatest, `networkErr, `authURL, `loggedFailure, `generation
      modifies `stateCh
      ensures View() == ResetNetworkState(old(View()), err) && authURL == "" && loggedFailure == ""
    {
      ForgetConfigs();
      networkErr, authURL, loggedFailure := err, "", "";
      generation := generation + 1;
      NotifyStateLocked();
    }

    method SetNetworkFailureLocked(err: Option<Error>, url: string, retry: bool)
      modifies `networkErr, `authURL, `retryLatest, `stateCh
      ensures View() == SetNetworkFailure(old(View()), err, retry) && authURL == url
    {
      networkErr, authURL := err, url;
      retryLatest := retry && haveLatest;
      NotifyStateLocked();
    }

    /** The part of `startLocked` that makes a built runtime visible. */
    method PublishRuntimeLocked(rt: RuntimeId)
      modifies this
      ensures View() == PublishRuntime(old(View()), rt) && authURL == "" && loggedFailure == ""
    {
      runtime := Some(rt);
      ResetNetworkStateLocked(None);
    }

    method CleanupStart(rt: RuntimeId)
      modifies this
      ensures View() == UnpublishRuntime(old(View()), rt)
    {
      if runtime == Some(rt) {
        runtime := None;
      }
    }

    method EnqueueNetworkConfig(source: RuntimeId, cfg: Config) returns (enqueued: bool)
      modifies this
      ensures enqueued == (!old(ctxDone) && old(runtime) == Some(source))
      ensures View() == EnqueueConfig(old(View()), source, cfg)
    {
      if ctxDone || runtime != Some(source) {
        return false;
      }
      latestConfig := cfg;
      haveLatest := true;
      return true;
    }

    /** The first critical section of `retryNetwork`. */
    method BeginRetryNetwork() returns (begun: bool)
      modifies this
      ensures begun == MayRetry(old(View())) && View() == BeginRetry(old(View()))
    {
      if ctxDone {
        return false;
      }
      if device.Some? && networkErr.None? {
        return false;
      }
      if retrying {
        return false;
      }
      retrying := true;
      networkErr := None;
      return true;
    }

    method ConfigSnapshotCurrentLocked(rt: Option<RuntimeId>, cfg: Config, have: bool, gen: nat) returns (current: bool)
      ensures current == SnapshotCurrent(View(), rt, cfg, have, gen)
    {
      current := generation == gen && runtime == rt && haveLatest == have && (!have || latestConfig == cfg);
    }

    method RecordConfigFailure(rt: Option<RuntimeId>, cfg: Config, gen: nat, err: Error) returns (recorded: bool)
      modifies `networkErr, `authURL, `retryLatest, `stateCh
      ensures authURL == old(authURL)
      ensures recorded == (!old(ctxDone) && SnapshotCurrent(old(View()), rt, cfg, true, gen))
      ensures View() == RecordFailure(old(View()), rt, cfg, true, gen, err, true)
    {
      if ctxDone {
        return false;
      }
      var current := ConfigSnapshotCurrentLocked(rt, cfg, true, gen);
      if !current {
        return false;
      }
      SetNetworkFailureLocked(Some(err), authURL, true);
      return true;
    }

    /** Detaches the device and starts a new generation, without the latest configuration unless it may be retried. */
    method DropNetwork(retryConfig: bool) returns (detached: Option<DeviceId>)
      modifies `device, `resolver, `latestConfig, `haveLatest, `generation
      ensures detached == old(device) && device.None? && resolver.None? && generation == old(generation) + 1
      ensures latestConfig == (if retryConfig then old(latestConfig) else ZERO_CONFIG)
      ensures haveLatest == (retryConfig && old(haveLatest))
    {
      detached := DetachStackLocked();
      if !retryConfig {
        latestConfig, haveLatest := ZERO_CONFIG, false;
      }
      generation := generation + 1;
    }

    method Remember(failure: string) returns (news: bool)
      modifies `loggedFailure
      ensures news == (old(loggedFailure) != failure) && loggedFailure == failure
    {
      news := loggedFailure != failure;
      loggedFailure := failure;
    }

    /**
     Returns the device that the caller must have closed in the background, and whether the failure
     differs from the one logged last; `text` is what the error says.
     */
    method InvalidateNetwork(source: Option<RuntimeId>, err: Option<Error>, text: string, url: string,
                             retryConfig: bool)
      returns (detached: Option<DeviceId>, shouldLog: bool)
      modifies `device, `resolver, `latestConfig, `haveLatest, `loggedFailure, `generation
      modifies `networkErr, `authURL, `retryLatest, `stateCh
      ensures detached == if MayInvalidateNetwork(old(View()), source) then old(device) else None
      ensures View() == ZeroTierState.InvalidateNetwork(old(View()), source, err, retryConfig)
      ensures var done, failure := MayInvalidateNetwork(old(View()), source), Failure(err, text, url);
              && shouldLog == (done && old(loggedFailure) != failure)
              && authURL == (if done then url else old(authURL))
              && loggedFailure == if done then failure else old(loggedFailure)
    {
      if ctxDone || (source.Some? && runtime != source) {
        return None, false;
      }
      detached := DropNetwork(retryConfig);
      shouldLog := Remember(Failure(err, text, url));
      SetNetworkFailureLocked(err, url, retryConfig);
    }

    method InvalidateDevice(dev: DeviceId, err: Error) returns (invalidated: bool)
      modifies this
      ensures invalidated == MayInvalidateDevice(old(View()), dev)
      ensures View() == ZeroTierState.InvalidateDevice(old(View()), dev, err) && authURL == old(authURL)
    {
      if ctxDone || device != Some(dev) {
        return false;
      }
      var _ := DetachStackLocked();
      SetNetworkFailureLocked(Some(err), authURL, true);
      return true;
    }

    method PublishConfig(cfg: Config, dev: DeviceId, withResolver: bool)
      modifies `config, `device, `resolver, `networkErr, `authURL, `retryLatest
      ensures config == cfg && device == Some(dev) && resolver == (if withResolver then Some(cfg) else None)
      ensures networkErr.None? && authURL == "" && !retryLatest
    {
      config, device, resolver := cfg, Some(dev), if withResolver then Some(cfg) else None;
      networkErr, authURL, retryLatest := None, "", false;
    }

    /** The last critical section of `applyNetworkConfig`; when it publishes it returns the device it replaced. */
    method CommitLocked(rt: RuntimeId, oldDevice: Option<DeviceId>, cfg: Config, gen: nat, dev: DeviceId,
                        withResolver: bool)
      returns (committed: bool, replaced: Option<DeviceId>)
      modifies `config, `device, `resolver, `networkErr, `authURL, `retryLatest, `generation, `stateCh
      ensures committed == MayCommit(old(View()), rt, oldDevice, cfg, gen)
      ensures View() == if committed then CommitConfig(old(View()), cfg, dev, withResolver) else old(View())
      ensures replaced == if committed then oldDevice else None
      ensures authURL == if committed then "" else old(authURL)
    {
      var current := ConfigSnapshotCurrentLocked(Some(rt), cfg, true, gen);
      if device != oldDevice || !current {
        return false, None;
      }
      replaced := device;
      PublishConfig(cfg, dev, withResolver);
      generation := generation + 1;
      NotifyStateLocked();
      committed := true;
    }

    /** The decision and the detach of `recoverIdentityCollision`; `sameAddress` compares the node's address. */
    method DetachCollidedRuntime(source: Option<RuntimeId>, sameAddress: bool, now: int)
      returns (done: bool, oldRuntime: Option<RuntimeId>, detached: Option<DeviceId>)
      modifies this
      ensures done == (!old(closed) && !old(ctxDone) && source.Some? && old(runtime) == source && sameAddress)
      ensures View() == if done then DetachCollided(params, old(View()), now) else old(View())
      ensures oldRuntime == (if done then old(runtime) else None) && detached == if done then old(device) else None
    {
      if closed || ctxDone || runtime != source || source.None? || !sameAddress {
        return false, None, None;
      }
      oldRuntime, detached := DetachRuntimeLocked();
      var err: Option<Error> := None;
      if params.configuredIdentity {
        err := Some(Collision);
        retryAt := Some(now + COLLISION_RETRY_INTERVAL);
      }
      ResetNetworkStateLocked(err);
      done := true;
    }

    /** The decision and the detach of `Close`: only the first close finds something to do. */
    method CloseLocked() returns (first: bool, oldRuntime: Option<RuntimeId>, detached: Option<DeviceId>)
      modifies this
      ensures first == !old(closed)
      ensures View() == if first then CloseOutbound(old(View())) else old(View())
      ensures oldRuntime == (if first then old(runtime) else None) && detached == if first then old(device) else None
    {
      if closed {
        return false, None, None;
      }
      closed := true;
      oldRuntime, detached := DetachRuntimeLocked();
      ResetNetworkStateLocked(Some(Closed));
      first := true;
    }
  }

  /** How a failure is remembered for the log. */
  function Failure(err: Option<Error>, text: string, url: string): string {
    if url != "" then "authentication-required:" + url else if err.Some? then text else ""
  }
}
