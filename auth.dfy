// The token manager of `auth.rs`, which caches credentials and refreshes them through a
// provider with bounded retries, and the background service that drives it. Threads, the
// async runtime and the clock are absent: the caller passes the current instant and the
// hashes of the clock the jitter would draw, and the sleeps are recorded, not taken.
module Auth {
  import opened Wrappers
  import opened Errors
  import opened AuthTypes
  import opened TokenManagerCommon

  /** With a non-negative ratio every threshold computation is defined. */
  lemma NonNegativeRatioDefined(c: AuthCredentials, ratio: real, now: Instant)
    requires ratio >= 0.0
    ensures RefreshDefined(c, ratio, now)
  {
    if c.expiresAt.Some? && c.expiresAt.value >= c.receivedAt {
      MulNonNegative((c.expiresAt.value - c.receivedAt) as real, ratio);
    }
  }

  /** `TokenManager`: a provider, a configuration and the cached credentials. */
  class TokenManager {
    const provider: ScriptedProvider<AuthCredentials>
    const config: TokenRefreshConfig
    var cached: Option<AuthCredentials>
    /** The retry sleeps taken so far, in order. */
    var slept: seq<Duration>

    /** `TokenManager::with_config`: nothing cached yet. */
    constructor WithConfig(provider: ScriptedProvider<AuthCredentials>, config: TokenRefreshConfig)
      ensures this.provider == provider && this.config == config
      ensures cached.None? && slept == []
    {
      this.provider := provider;
      this.config := config;
      cached := None;
      slept := [];
    }

    /** `TokenManager::new`: the default configuration. */
    constructor (provider: ScriptedProvider<AuthCredentials>)
      ensures this.provider == provider && config == DefaultTokenRefreshConfig()
      ensures cached.None? && slept == []
    {
      this.provider := provider;
      config := DefaultTokenRefreshConfig();
      cached := None;
      slept := [];
    }

    /**
     * `refresh_credentials`: the retry loop against the provider; a success replaces the
     * cached credentials, a failure leaves them as they were.
     */
    method RefreshCredentials(hashes: seq<nat>) returns (r: Result<AuthCredentials, RedisError>)
      modifies this, provider
      ensures provider.calls >= old(provider.calls)
      ensures RetryOutcome(provider.script, old(provider.calls), config.retryConfig.maxAttempts, provider.calls - old(provider.calls), r)
      ensures slept == old(slept) + Sleeps(config.retryConfig, hashes, provider.calls - old(provider.calls) - 1)
      ensures cached == if r.Success? then Some(r.value) else old(cached)
    {
      var s;
      r, s := FetchWithRetry(provider, config.retryConfig, hashes);
      slept := slept + s;
      if r.Success? {
        cached := Some(r.value);
      }
    }

    /**
     * `get_credentials`: cached credentials that need no refresh are returned without calling
     * the provider; otherwise the credentials are refreshed.
     */
    method GetCredentials(now: Instant, hashes: seq<nat>) returns (r: Result<AuthCredentials, RedisError>)
      requires cached.Some? ==> RefreshDefined(cached.value, config.expirationRefreshRatio, now)
      modifies this, provider
      ensures old(cached).Some? && !ShouldRefresh(old(cached).value, config, now) ==>
        r == Success(old(cached).value) && cached == old(cached) && slept == old(slept)
        && provider.calls == old(provider.calls)
      ensures !(old(cached).Some? && !ShouldRefresh(old(cached).value, config, now)) ==>
        && provider.calls >= old(provider.calls)
        && RetryOutcome(provider.script, old(provider.calls), config.retryConfig.maxAttempts, provider.calls - old(provider.calls), r)
        && slept == old(slept) + Sleeps(config.retryConfig, hashes, provider.calls - old(provider.calls) - 1)
        && cached == if r.Success? then Some(r.value) else old(cached)
    {
      if cached.Some? && !ShouldRefresh(cached.value, config, now) {
        return Success(cached.value);
      }
      r := RefreshCredentials(hashes);
    }
  }

  /** What the background refresh loop receives: an interval tick or the shutdown signal. */
  datatype LoopEvent = Tick(now: Instant, hashes: seq<nat>) | Shutdown

  /** How many ticks come before the first shutdown signal. */
  function TicksBeforeShutdown(events: seq<LoopEvent>): (n: nat)
    ensures n <= |events|
    ensures forall i :: 0 <= i < n ==> events[i].Tick?
    ensures n < |events| ==> events[n].Shutdown?
  {
    if events == [] || events[0].Shutdown? then 0
    else 1 + TicksBeforeShutdown(events[1..])
  }

  /** `c` is a success the provider returned at one of its calls from `first` on. */
  ghost predicate ReturnedSince(provider: ScriptedProvider<AuthCredentials>, first: nat, c: AuthCredentials)
    reads provider
  {
    exists k :: first <= k < provider.calls && provider.script(k) == Success(c)
  }

  /**
   * `refresh_loop`: at every tick ask the manager for credentials (a failure is only
   * reported, and the loop goes on), until the shutdown signal arrives. `events` is a finite
   * prefix of what the loop receives; it returns how many ticks it handled. Credentials once
   * cached stay cached, the cache only ever holds what it held or a success the provider
   * returned during the loop, the sleeps only grow, and a loop started without credentials
   * that sees a tick calls the provider.
   */
  method RefreshLoop(manager: TokenManager, events: seq<LoopEvent>) returns (ticks: nat)
    requires manager.config.expirationRefreshRatio >= 0.0
    modifies manager, manager.provider
    ensures ticks == TicksBeforeShutdown(events)
    ensures manager.provider.calls >= old(manager.provider.calls)
    ensures old(manager.cached).Some? ==> manager.cached.Some?
    ensures manager.cached.Some? ==>
      manager.cached == old(manager.cached) || ReturnedSince(manager.provider, old(manager.provider.calls), manager.cached.value)
    ensures old(manager.slept) <= manager.slept
    ensures ticks > 0 && old(manager.cached).None? ==> manager.provider.calls > old(manager.provider.calls)
  {
    ticks := 0;
    while ticks < |events| && events[ticks].Tick?
      invariant ticks <= TicksBeforeShutdown(events)
      invariant manager.provider.calls >= old(manager.provider.calls)
      invariant old(manager.cached).Some? ==> manager.cached.Some?
      invariant manager.cached.Some? ==>
        manager.cached == old(manager.cached) || ReturnedSince(manager.provider, old(manager.provider.calls), manager.cached.value)
      invariant old(manager.slept) <= manager.slept
      invariant ticks > 0 && old(manager.cached).None? ==> manager.provider.calls > old(manager.provider.calls)
      decreases |events| - ticks
    {
      var now := events[ticks].now;
      if manager.cached.Some? {
        NonNegativeRatioDefined(manager.cached.value, manager.config.expirationRefreshRatio, now);
      }
      ghost var cachedBefore := manager.cached;
      var _ := manager.GetCredentials(now, events[ticks].hashes);
      if manager.cached != cachedBefore {
        // only a refresh that succeeded changes the cache, with the provider's last outcome
        assert manager.provider.script(manager.provider.calls - 1) == Success(manager.cached.value);
      }
      ticks := ticks + 1;
    }
  }

  /**
   * `AsyncTokenRefreshService`: the handle of the spawned refresh task and the sender of its
   * shutdown channel. Tasks are numbered in the order they were spawned; `signalled` and
   * `joined` record, in order, the tasks sent a shutdown signal and the tasks awaited.
   */
  class AsyncTokenRefreshService {
    const tokenManager: TokenManager
    var refreshHandle: Option<nat>
    var shutdownSender: Option<nat>
    var spawned: nat
    var signalled: seq<nat>
    var joined: seq<nat>

    /** A running service's handle and sender belong to the last task spawned. */
    predicate Valid()
      reads this
    {
      && (refreshHandle.Some? ==> refreshHandle == Some(spawned - 1) && spawned > 0)
      && (shutdownSender.Some? ==> shutdownSender == refreshHandle)
    }

    /** `AsyncTokenRefreshService::new`: a manager with the given configuration, no task yet. */
    constructor (provider: ScriptedProvider<AuthCredentials>, config: TokenRefreshConfig)
      ensures Valid()
      ensures fresh(tokenManager) && tokenManager.provider == provider && tokenManager.config == config
      ensures tokenManager.cached.None? && tokenManager.slept == []
      ensures refreshHandle.None? && shutdownSender.None?
      ensures spawned == 0 && signalled == [] && joined == []
    {
      tokenManager := new TokenManager.WithConfig(provider, config);
      refreshHandle := None;
      shutdownSender := None;
      spawned := 0;
      signalled := [];
      joined := [];
    }

    /** `start`: does nothing when a task is recorded; otherwise spawns one and keeps its handle and sender. */
    method Start() returns (r: Result<(), RedisError>)
      requires Valid()
      modifies this
      ensures Valid() && r == Success(())
      ensures old(refreshHandle).Some? ==>
        && refreshHandle == old(refreshHandle) && shutdownSender == old(shutdownSender)
        && spawned == old(spawned)
      ensures old(refreshHandle).None? ==>
        && refreshHandle == Some(old(spawned)) && shutdownSender == Some(old(spawned))
        && spawned == old(spawned) + 1
      ensures signalled == old(signalled) && joined == old(joined)
    {
      if refreshHandle.Some? {
        return Success(());
      }
      var task := spawned;
      spawned := spawned + 1;
      refreshHandle := Some(task);
      shutdownSender := Some(task);
      r := Success(());
    }

    /** `stop`: signals the task through the sender it takes, then takes the handle and awaits it. */
    method Stop()
      requires Valid()
      modifies this
      ensures Valid() && refreshHandle.None? && shutdownSender.None? && spawned == old(spawned)
      ensures signalled == old(signalled) + (if old(shutdownSender).Some? then [old(shutdownSender).value] else [])
      ensures joined == old(joined) + (if old(refreshHandle).Some? then [old(refreshHandle).value] else [])
    {
      if shutdownSender.Some? {
        signalled := signalled + [shutdownSender.value];
        shutdownSender := None;
      }
      if refreshHandle.Some? {
        joined := joined + [refreshHandle.value];
        refreshHandle := None;
      }
    }

    /** `drop`: signals the task if the sender is still there, without awaiting it. */
    method Drop()
      requires Valid()
      modifies this
      ensures Valid() && shutdownSender.None? && refreshHandle == old(refreshHandle) && spawned == old(spawned)
      ensures signalled == old(signalled) + (if old(shutdownSender).Some? then [old(shutdownSender).value] else [])
      ensures joined == old(joined)
    {
      if shutdownSender.Some? {
        signalled := signalled + [shutdownSender.value];
        shutdownSender := None;
      }
    }
  }

  /** Start, stop, start again: the second task is a new one, and the first was signalled and awaited. */
  method RestartSpawnsNewTask(s: AsyncTokenRefreshService)
    requires s.Valid() && s.refreshHandle.None? && s.shutdownSender.None?
    modifies s
    ensures s.refreshHandle == Some(old(s.spawned) + 1)
    ensures s.signalled == old(s.signalled) + [old(s.spawned)] && s.joined == old(s.joined) + [old(s.spawned)]
  {
    var _ := s.Start();
    s.Stop();
    var _ := s.Start();
  }
}
