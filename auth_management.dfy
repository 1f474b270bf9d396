// The token manager of `auth_management.rs`: it hands out `BasicAuth` credentials, which
// carry no expiry, so anything cached is returned as it is and only an empty cache makes it
// call its provider, through the same bounded retry loop as the manager of `auth.rs`.
module AuthManagement {
  import opened Wrappers
  import opened Errors
  import opened AuthTypes
  import opened TokenManagerCommon

  /** `TokenManager`: a provider, a configuration and the cached user name and password. */
  class TokenManager {
    const provider: ScriptedProvider<BasicAuth>
    const config: TokenRefreshConfig
    var cached: Option<BasicAuth>
    /** The retry sleeps taken so far, in order. */
    var slept: seq<Duration>

    /** `TokenManager::with_config`: nothing cached yet. */
    constructor WithConfig(provider: ScriptedProvider<BasicAuth>, config: TokenRefreshConfig)
      ensures this.provider == provider && this.config == config
      ensures cached.None? && slept == []
    {
      this.provider := provider;
      this.config := config;
      cached := None;
      slept := [];
    }

    /** `TokenManager::new`: the default configuration. */
    constructor (provider: ScriptedProvider<BasicAuth>)
      ensures this.provider == provider && config == DefaultTokenRefreshConfig()
      ensures cached.None? && slept == []
    {
      this.provider := provider;
      config := DefaultTokenRefreshConfig();
      cached := None;
      slept := [];
    }

    /**
     * `refresh_credentials`: the retry loop against the provider; a success replaces the
     * cached credentials, a failure leaves them as they were.
     */
    method RefreshCredentials(hashes: seq<nat>) returns (r: Result<BasicAuth, RedisError>)
      modifies this, provider
      ensures provider.calls >= old(provider.calls)
      ensures RetryOutcome(provider.script, old(provider.calls), config.retryConfig.maxAttempts, provider.calls - old(provider.calls), r)
      ensures slept == old(slept) + Sleeps(config.retryConfig, hashes, provider.calls - old(provider.calls) - 1)
      ensures cached == if r.Success? then Some(r.value) else old(cached)
    {
      var s;
      r, s := FetchWithRetry(provider, config.retryConfig, hashes);
      slept := slept + s;
      if r.Success? {
        cached := Some(r.value);
      }
    }

    /** `get_credentials`: whatever is cached, or else a refresh. */
    method GetCredentials(hashes: seq<nat>) returns (r: Result<BasicAuth, RedisError>)
      modifies this, provider
      ensures old(cached).Some? ==>
        r == Success(old(cached).value) && cached == old(cached) && slept == old(slept)
        && provider.calls == old(provider.calls)
      ensures old(cached).None? ==>
        && provider.calls >= old(provider.calls)
        && RetryOutcome(provider.script, old(provider.calls), config.retryConfig.maxAttempts, provider.calls - old(provider.calls), r)
        && slept == old(slept) + Sleeps(config.retryConfig, hashes, provider.calls - old(provider.calls) - 1)
        && cached == if r.Success? then Some(r.value) else None
    {
      if cached.Some? {
        return Success(cached.value);
      }
      r := RefreshCredentials(hashes);
    }
  }

  /**
   * Once a call has succeeded the provider is never asked again: a second `get_credentials`
   * returns the same credentials, and `between`, the provider's call count after the first
   * call, is still its count after the second.
   */
  method SecondCallIsCached(m: TokenManager, hashes: seq<nat>, later: seq<nat>)
    returns (first: Result<BasicAuth, RedisError>, second: Result<BasicAuth, RedisError>, between: nat)
    modifies m, m.provider
    ensures between >= old(m.provider.calls)
    ensures first.Success? ==> second == first
    ensures first.Success? ==> m.cached == Some(first.value)
    ensures first.Success? ==> m.provider.calls == between
  {
    first := m.GetCredentials(hashes);
    between := m.provider.calls;
    second := m.GetCredentials(later);
  }
}
