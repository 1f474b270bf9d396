// Credentials and the refresh configuration of the token managers. Time is an integer
// count of nanoseconds: an instant is a point on the wall clock, a duration a length of
// time. The clock is never read here; every check takes the current instant `now`.
module AuthTypes {
  import opened Wrappers

  /** A wall-clock instant (`SystemTime`), in nanoseconds from an arbitrary origin. */
  type Instant = int

  /** A `Duration`, in nanoseconds. */
  type Duration = nat

  const NANOS_PER_MILLI: nat := 1_000_000
  const NANOS_PER_SEC: nat := 1_000_000_000

  function Millis(n: nat): Duration { n * NANOS_PER_MILLI }
  function Secs(n: nat): Duration { n * NANOS_PER_SEC }

  /** `AuthCredentials`: a token, an optional expiry and the instant it was received. */
  datatype AuthCredentials = AuthCredentials(token: string, expiresAt: Option<Instant>, receivedAt: Instant)
  {
    /** `is_expired`: only a credential with an expiry can expire, and it does so at that instant. */
    predicate IsExpired(now: Instant): (r: bool)
      ensures r ==> expiresAt.Some?
      ensures expiresAt.Some? ==> (r <==> expiresAt.value <= now)
    {
      match expiresAt
      case None => false
      case Some(e) => now >= e
    }

    /**
     * `eligible_for_refresh`: a credential without expiry never is; otherwise it is once
     * `threshold` has elapsed since it was received, and always when the clock reads an
     * instant before `receivedAt` (the elapsed time cannot be computed then).
     */
    predicate EligibleForRefresh(threshold: Duration, now: Instant): (r: bool)
      ensures expiresAt.None? ==> !r
      ensures expiresAt.Some? && receivedAt <= now ==> (r <==> receivedAt + threshold <= now)
      ensures expiresAt.Some? && now < receivedAt ==> r
    {
      if expiresAt.None? then false
      else if now < receivedAt then true
      else now - receivedAt >= threshold
    }
  }

  /** `AuthCredentials::new`: no expiry, received now. */
  function NewCredentials(token: string, now: Instant): (c: AuthCredentials)
    ensures c.token == token && c.expiresAt.None? && c.receivedAt == now
    ensures forall t :: !c.IsExpired(t)
  {
    AuthCredentials(token, None, now)
  }

  /** `AuthCredentials::with_expiration`. */
  function CredentialsWithExpiration(token: string, expiresAt: Instant, now: Instant): (c: AuthCredentials)
    ensures c.token == token && c.expiresAt == Some(expiresAt) && c.receivedAt == now
  {
    AuthCredentials(token, Some(expiresAt), now)
  }

  /** Once expired, a credential stays expired as the clock moves on. */
  lemma ExpiryIsPermanent(c: AuthCredentials, now: Instant, later: Instant)
    requires c.IsExpired(now) && now <= later
    ensures c.IsExpired(later)
  {
  }

  /**
   * Once eligible at a reading of the clock no earlier than `receivedAt`, a credential
   * stays eligible as time moves on. (Readings before `receivedAt` count as eligible and
   * are exempt: a later reading past `receivedAt` may not be.)
   */
  lemma EligibilityIsPermanent(c: AuthCredentials, threshold: Duration, now: Instant, later: Instant)
    requires c.EligibleForRefresh(threshold, now) && c.receivedAt <= now <= later
    ensures c.EligibleForRefresh(threshold, later)
  {
  }

  /** An expired credential whose threshold falls within its lifetime is eligible for a refresh. */
  lemma ExpiredIsEligible(c: AuthCredentials, threshold: Duration, now: Instant)
    requires c.IsExpired(now) && c.receivedAt + threshold <= c.expiresAt.value
    ensures c.EligibleForRefresh(threshold, now)
  {
  }

  /** A lower threshold makes a credential eligible no later. */
  lemma LowerThresholdEligibleSooner(c: AuthCredentials, low: Duration, high: Duration, now: Instant)
    requires low <= high && c.EligibleForRefresh(high, now)
    ensures c.EligibleForRefresh(low, now)
  {
  }

  /** The credential `auth_management.rs` and `entra_id.rs` hand out: a user name and a password. */
  datatype BasicAuth = BasicAuth(username: string, password: string)

  // ---------------------------------------------------------------- configuration

  /** `RetryConfig`; the multiplier and the jitter fraction are reals (`f64` in the source). */
  datatype RetryConfig = RetryConfig(
    maxAttempts: nat,
    initialDelay: Duration,
    maxDelay: Duration,
    backoffMultiplier: real,
    jitterPercentage: real)

  /** `RetryConfig::default()`. */
  function DefaultRetryConfig(): (r: RetryConfig)
    ensures r.maxAttempts == 3 && r.initialDelay == 100 * NANOS_PER_MILLI && r.maxDelay == 30 * NANOS_PER_SEC
    ensures r.backoffMultiplier == 2.0 && r.jitterPercentage == 0.1
  {
    RetryConfig(3, Millis(100), Secs(30), 2.0, 0.1)
  }

  /** `TokenRefreshConfig`: the fraction of a token's lifetime after which it is refreshed. */
  datatype TokenRefreshConfig = TokenRefreshConfig(expirationRefreshRatio: real, retryConfig: RetryConfig)
  {
    /** `set_expiration_refresh_ratio` (only in `auth_management.rs`). */
    function SetExpirationRefreshRatio(ratio: real): (r: TokenRefreshConfig)
      ensures r.expirationRefreshRatio == ratio && r.retryConfig == retryConfig
    {
      this.(expirationRefreshRatio := ratio)
    }

    /** `set_retry_config` (only in `auth_management.rs`). */
    function SetRetryConfig(retry: RetryConfig): (r: TokenRefreshConfig)
      ensures r.retryConfig == retry && r.expirationRefreshRatio == expirationRefreshRatio
    {
      this.(retryConfig := retry)
    }
  }

  /** `TokenRefreshConfig::default()`: refresh at 80% of the lifetime, default retries. */
  function DefaultTokenRefreshConfig(): (r: TokenRefreshConfig)
    ensures r.expirationRefreshRatio == 0.8 && r.retryConfig == DefaultRetryConfig()
  {
    TokenRefreshConfig(0.8, DefaultRetryConfig())
  }

  /** `TokenRefreshServiceConfig` (in `auth_management.rs`); `new` is its constructor. */
  datatype TokenRefreshServiceConfig = TokenRefreshServiceConfig(refreshInterval: Duration, tokenRefreshConfig: TokenRefreshConfig)
  {
    function SetRefreshInterval(interval: Duration): (r: TokenRefreshServiceConfig)
      ensures r.refreshInterval == interval && r.tokenRefreshConfig == tokenRefreshConfig
    {
      this.(refreshInterval := interval)
    }

    function SetTokenRefreshConfig(config: TokenRefreshConfig): (r: TokenRefreshServiceConfig)
      ensures r.tokenRefreshConfig == config && r.refreshInterval == refreshInterval
    {
      this.(tokenRefreshConfig := config)
    }
  }

  /** `TokenRefreshServiceConfig::default()`: a 60-second interval and the default refresh config. */
  function DefaultTokenRefreshServiceConfig(): (r: TokenRefreshServiceConfig)
    ensures r.refreshInterval == 60 * NANOS_PER_SEC && r.tokenRefreshConfig == DefaultTokenRefreshConfig()
  {
    TokenRefreshServiceConfig(Secs(60), DefaultTokenRefreshConfig())
  }

  /** Each setter replaces its own field; applied twice, the second value wins. */
  lemma SettersLastWins(c: TokenRefreshConfig, s: TokenRefreshServiceConfig, r1: real, r2: real,
                        q1: RetryConfig, q2: RetryConfig, i1: Duration, i2: Duration)
    ensures c.SetExpirationRefreshRatio(r1).SetExpirationRefreshRatio(r2) == c.SetExpirationRefreshRatio(r2)
    ensures c.SetRetryConfig(q1).SetRetryConfig(q2) == c.SetRetryConfig(q2)
    ensures c.SetExpirationRefreshRatio(r1).SetRetryConfig(q1) == c.SetRetryConfig(q1).SetExpirationRefreshRatio(r1)
    ensures s.SetRefreshInterval(i1).SetRefreshInterval(i2) == s.SetRefreshInterval(i2)
    ensures s.SetRefreshInterval(i1).SetTokenRefreshConfig(c) == s.SetTokenRefreshConfig(c).SetRefreshInterval(i1)
  {
  }
}
