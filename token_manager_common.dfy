// The policy shared by the token managers of `auth.rs` and `auth_management.rs` (each file
// carries an identical copy of `token_manager_common`): when a credential is due for refresh,
// the backoff delays between attempts and their jitter, plus the bounded retry loop both
// managers run against their credentials provider. The `f64` arithmetic is done on reals.
module TokenManagerCommon {
  import opened Wrappers
  import opened Errors
  import opened AuthTypes

  const U64_MAX: nat := 0xFFFF_FFFF_FFFF_FFFF

  /**
   * `Duration::from_secs_f64` of a non-negative amount, here already in nanoseconds: the
   * nearest whole nanosecond.
   */
  function FromSecsF64(x: real): (d: Duration)
    requires x >= 0.0
    ensures x - 0.5 < d as real <= x + 0.5
  {
    (x + 0.5).Floor
  }

  /** `f64 as u64`: truncation toward zero, saturating at both ends of the range. */
  function SaturatingU64(x: real): (n: nat)
    ensures n <= U64_MAX
    ensures x <= 0.0 ==> n == 0
    ensures 0.0 <= x < U64_MAX as real ==> n as real <= x < n as real + 1.0
    ensures x >= U64_MAX as real ==> n == U64_MAX
  {
    if x <= 0.0 then 0 else if x >= U64_MAX as real then U64_MAX else x.Floor
  }

  lemma MulNonNegative(a: real, b: real)
    requires a >= 0.0 && b >= 0.0
    ensures a * b >= 0.0
  {
  }

  // ---------------------------------------------------------------- refresh policy

  /** `from_secs_f64` panics on a negative amount: the product must not be negative. */
  predicate ThresholdDefined(lifetime: Duration, ratio: real)
  {
    lifetime as real * ratio >= 0.0
  }

  /** The part `ratio` of `lifetime`, as `from_secs_f64(lifetime.as_secs_f64() * ratio)` computes it. */
  function RefreshThreshold(lifetime: Duration, ratio: real): (t: Duration)
    requires ThresholdDefined(lifetime, ratio)
    ensures lifetime as real * ratio - 0.5 < t as real <= lifetime as real * ratio + 0.5
    ensures ratio <= 1.0 ==> t <= lifetime
  {
    var x := lifetime as real * ratio;
    assert ratio <= 1.0 ==> x <= lifetime as real by {
      if ratio <= 1.0 {
        MulNonNegative(lifetime as real, 1.0 - ratio);
      }
    }
    FromSecsF64(x)
  }

  /** Whether `should_refresh_credentials_based_on_config` reaches `from_secs_f64` with a negative amount. */
  predicate RefreshDefined(c: AuthCredentials, ratio: real, now: Instant)
  {
    c.IsExpired(now) || c.expiresAt.None? || c.expiresAt.value < c.receivedAt
    || ThresholdDefined(c.expiresAt.value - c.receivedAt, ratio)
  }

  /**
   * `should_refresh_credentials_based_on_config`: expired credentials must be refreshed;
   * so must those whose expiry precedes their receipt; those without expiry never are;
   * the rest once the configured part of their lifetime has elapsed.
   */
  function ShouldRefresh(c: AuthCredentials, config: TokenRefreshConfig, now: Instant): (r: bool)
    requires RefreshDefined(c, config.expirationRefreshRatio, now)
    ensures c.IsExpired(now) ==> r
    ensures c.expiresAt.None? ==> !r
    ensures c.expiresAt.Some? && c.expiresAt.value < c.receivedAt ==> r
    ensures c.expiresAt.Some? && c.receivedAt <= c.expiresAt.value && !c.IsExpired(now) ==>
      (r <==> c.EligibleForRefresh(RefreshThreshold(c.expiresAt.value - c.receivedAt, config.expirationRefreshRatio), now))
  {
    if c.IsExpired(now) then true
    else
      match c.expiresAt
      case None => false
      case Some(e) =>
        if e >= c.receivedAt then c.EligibleForRefresh(RefreshThreshold(e - c.receivedAt, config.expirationRefreshRatio), now)
        else true
  }

  /**
   * In plain time: with a ratio in [0, 1] and a clock past the receipt of a credential that
   * expires after it was received, a refresh is due exactly once the threshold has elapsed,
   * and the threshold is never beyond the expiry.
   */
  lemma RefreshWindow(c: AuthCredentials, config: TokenRefreshConfig, now: Instant)
    requires 0.0 <= config.expirationRefreshRatio <= 1.0
    requires c.expiresAt.Some? && c.receivedAt <= c.expiresAt.value && c.receivedAt <= now
    ensures var t := RefreshThreshold(c.expiresAt.value - c.receivedAt, config.expirationRefreshRatio);
      && c.receivedAt + t <= c.expiresAt.value
      && (ShouldRefresh(c, config, now) <==> now - c.receivedAt >= t)
  {
    var t := RefreshThreshold(c.expiresAt.value - c.receivedAt, config.expirationRefreshRatio);
    if c.IsExpired(now) {
      assert now - c.receivedAt >= c.expiresAt.value - c.receivedAt >= t;
    }
  }

  /** Once due at a reading past the receipt, a refresh stays due as the clock moves on. */
  lemma ShouldRefreshIsPermanent(c: AuthCredentials, config: TokenRefreshConfig, now: Instant, later: Instant)
    requires RefreshDefined(c, config.expirationRefreshRatio, now) && RefreshDefined(c, config.expirationRefreshRatio, later)
    requires c.receivedAt <= now <= later && ShouldRefresh(c, config, now)
    ensures ShouldRefresh(c, config, later)
  {
    if c.IsExpired(now) {
      ExpiryIsPermanent(c, now, later);
    } else if c.expiresAt.Some? && c.receivedAt <= c.expiresAt.value {
      var t := RefreshThreshold(c.expiresAt.value - c.receivedAt, config.expirationRefreshRatio);
      EligibilityIsPermanent(c, t, now, later);
    }
  }

  // ---------------------------------------------------------------- backoff

  /** The random factor `apply_jitter` draws from a hash of the clock: a multiple of 0.001 in [0, 1). */
  function RandomFactor(hash: nat): (f: real)
    ensures 0.0 <= f < 1.0
  {
    (hash % 1000) as real / 1000.0
  }

  /**
   * The hash of the clock at the `k`-th sleep, read from the readings the caller supplies; a
   * sleep past the end of the list reads hash 0, which the clock could equally give.
   */
  function HashAt(hashes: seq<nat>, k: nat): nat
  {
    if k < |hashes| then hashes[k] else 0
  }

  /**
   * `apply_jitter`: a non-positive fraction leaves the delay alone; otherwise the delay moves
   * by up to `pct` of itself in either direction, the hash of the clock choosing where, and
   * is clamped at zero.
   */
  function ApplyJitter(delay: Duration, pct: real, hash: nat): (d: Duration)
    ensures pct <= 0.0 ==> d == delay
  {
    if pct <= 0.0 then delay
    else
      var range := delay as real * pct;
      MulNonNegative(delay as real, pct);
      var jittered := delay as real + Jitter(range, hash);
      FromSecsF64(if jittered >= 0.0 then jittered else 0.0)
  }

  /** The offset `apply_jitter` adds: `range × (factor − 0.5) × 2`, within `±range`. */
  function Jitter(range: real, hash: nat): (j: real)
    requires range >= 0.0
    ensures -range <= j <= range
  {
    var f := RandomFactor(hash);
    var j := range * (f - 0.5) * 2.0;
    assert j == range * (2.0 * f - 1.0);
    MulNonNegative(range, 2.0 - 2.0 * f);
    MulNonNegative(range, 2.0 * f);
    j
  }

  /** The jittered delay stays within `delay ± delay × pct`, up to the rounding to a nanosecond. */
  lemma JitterBounds(delay: Duration, pct: real, hash: nat)
    requires pct > 0.0
    ensures var d := ApplyJitter(delay, pct, hash) as real;
      && d <= delay as real + delay as real * pct + 0.5
      && d >= delay as real - delay as real * pct - 0.5
  {
    var range := delay as real * pct;
    MulNonNegative(delay as real, pct);
    ClampedRounding(delay as real, range, Jitter(range, hash));
  }

  lemma ClampedRounding(base: real, range: real, j: real)
    requires base >= 0.0 && -range <= j <= range
    ensures var c := if base + j >= 0.0 then base + j else 0.0;
      base - range - 0.5 < FromSecsF64(c) as real <= base + range + 0.5
  {
  }

  /**
   * `calculate_next_delay`: the delay in whole milliseconds times the multiplier, cast to
   * `u64` milliseconds, capped at `maxDelay`.
   */
  function CalculateNextDelay(current: Duration, multiplier: real, maxDelay: Duration): (d: Duration)
    ensures d <= maxDelay
    ensures d == maxDelay || d % NANOS_PER_MILLI == 0
  {
    var next := Millis(ScaleMillis(current / NANOS_PER_MILLI, multiplier));
    if next <= maxDelay then next else maxDelay
  }

  /** `(millis as f64 * multiplier) as u64`: a multiplier of at least 1 never scales down. */
  function ScaleMillis(millis: nat, multiplier: real): (n: nat)
    ensures n <= U64_MAX
    ensures multiplier >= 1.0 && millis <= U64_MAX ==> n >= millis
  {
    var x := millis as real * multiplier;
    if multiplier >= 1.0 then
      MulNonNegative(millis as real, multiplier - 1.0);
      SaturatingU64(x)
    else SaturatingU64(x)
  }

  /** With a multiplier of at least 1, a whole-millisecond delay under the cap never shrinks. */
  lemma NextDelayNotSmaller(current: Duration, multiplier: real, maxDelay: Duration)
    requires multiplier >= 1.0 && current <= maxDelay && current % NANOS_PER_MILLI == 0
    requires current / NANOS_PER_MILLI <= U64_MAX
    ensures CalculateNextDelay(current, multiplier, maxDelay) >= current
  {
    var millis := current / NANOS_PER_MILLI;
    WholeMillis(current);
    MillisMonotone(millis, ScaleMillis(millis, multiplier));
  }

  lemma WholeMillis(d: Duration)
    requires d % NANOS_PER_MILLI == 0
    ensures Millis(d / NANOS_PER_MILLI) == d
  {
  }

  lemma MillisMonotone(a: nat, b: nat)
    requires a <= b
    ensures Millis(a) <= Millis(b)
  {
    assert Millis(b) - Millis(a) == (b - a) * NANOS_PER_MILLI;
  }

  /** The delay before the `k`-th retry sleep is jittered (`k` counts from 0). */
  function DelayAt(retry: RetryConfig, k: nat): Duration
  {
    if k == 0 then retry.initialDelay
    else CalculateNextDelay(DelayAt(retry, k - 1), retry.backoffMultiplier, retry.maxDelay)
  }

  /** From the second attempt on, the delay respects the cap and is whole milliseconds or the cap. */
  lemma DelaysCapped(retry: RetryConfig, k: nat)
    requires k >= 1
    ensures DelayAt(retry, k) <= retry.maxDelay
    ensures DelayAt(retry, k) == retry.maxDelay || DelayAt(retry, k) % NANOS_PER_MILLI == 0
  {
  }

  /**
   * With a multiplier of at least 1 and whole-millisecond initial and maximum delays, the
   * backoff delays never decrease.
   */
  lemma {:induction false} DelaysNonDecreasing(retry: RetryConfig, k: nat)
    requires retry.backoffMultiplier >= 1.0 && retry.initialDelay <= retry.maxDelay
    requires retry.initialDelay % NANOS_PER_MILLI == 0 && retry.maxDelay % NANOS_PER_MILLI == 0
    requires retry.maxDelay / NANOS_PER_MILLI <= U64_MAX
    ensures DelayAt(retry, k) <= retry.maxDelay && DelayAt(retry, k) % NANOS_PER_MILLI == 0
    ensures DelayAt(retry, k) <= DelayAt(retry, k + 1)
  {
    if k > 0 {
      DelaysNonDecreasing(retry, k - 1);
    }
    NextDelayNotSmaller(DelayAt(retry, k), retry.backoffMultiplier, retry.maxDelay);
  }

  /** The default configuration backs off 100 ms, 200 ms, 400 ms. */
  lemma DefaultDelays()
    ensures DelayAt(DefaultRetryConfig(), 0) == Millis(100)
    ensures DelayAt(DefaultRetryConfig(), 1) == Millis(200)
    ensures DelayAt(DefaultRetryConfig(), 2) == Millis(400)
  {
    var r := DefaultRetryConfig();
    assert DelayAt(r, 1) == CalculateNextDelay(Millis(100), 2.0, Secs(30));
    assert SaturatingU64(100 as real * 2.0) == 200;
    assert DelayAt(r, 2) == CalculateNextDelay(Millis(200), 2.0, Secs(30));
    assert SaturatingU64(200 as real * 2.0) == 400;
  }

  // ---------------------------------------------------------------- retry loop

  /** A credentials provider whose `k`-th call (counting from 0) returns `script(k)`. */
  class ScriptedProvider<T> {
    const script: nat -> Result<T, RedisError>
    var calls: nat

    constructor (script: nat -> Result<T, RedisError>)
      ensures this.script == script && calls == 0
    {
      this.script := script;
      calls := 0;
    }

    /** `get_credentials`: the next scripted outcome. */
    method GetCredentials() returns (r: Result<T, RedisError>)
      modifies this
      ensures calls == old(calls) + 1 && r == script(old(calls))
    {
      r := script(calls);
      calls := calls + 1;
    }
  }

  /** At least one attempt is made, even when `max_attempts` is 0. */
  function AttemptBound(maxAttempts: nat): (n: nat)
    ensures n >= 1 && n >= maxAttempts
  {
    if maxAttempts == 0 then 1 else maxAttempts
  }

  /** The `n` calls from `first` on all fail. */
  predicate AllFail<T>(script: nat -> Result<T, RedisError>, first: nat, n: nat)
  {
    forall j :: first <= j < first + n ==> script(j).Failure?
  }

  /**
   * A retry run that starts at call `first`, makes `n` calls and returns `r`: at least one
   * call and at most the attempt bound, every call but the last failed, the last one is
   * returned, and a failure is returned only once the attempts are used up.
   */
  predicate RetryOutcome<T(==)>(script: nat -> Result<T, RedisError>, first: nat, maxAttempts: nat, n: nat, r: Result<T, RedisError>)
  {
    && 1 <= n <= AttemptBound(maxAttempts)
    && r == script(first + n - 1)
    && AllFail(script, first, n - 1)
    && (r.Failure? ==> n == AttemptBound(maxAttempts))
  }

  /** The outcome is determined by the provider: the run stops at the first success or at the bound. */
  lemma RetryOutcomeUnique<T>(script: nat -> Result<T, RedisError>, first: nat, maxAttempts: nat,
                              n1: nat, r1: Result<T, RedisError>, n2: nat, r2: Result<T, RedisError>)
    requires RetryOutcome(script, first, maxAttempts, n1, r1)
    requires RetryOutcome(script, first, maxAttempts, n2, r2)
    ensures n1 == n2 && r1 == r2
  {
  }

  /** A provider that always fails is called `max(max_attempts, 1)` times; one that succeeds at once, once. */
  lemma RetryCalls<T>(script: nat -> Result<T, RedisError>, first: nat, maxAttempts: nat, n: nat, r: Result<T, RedisError>)
    requires RetryOutcome(script, first, maxAttempts, n, r)
    ensures (forall k :: first <= k < first + AttemptBound(maxAttempts) ==> script(k).Failure?) ==>
      n == AttemptBound(maxAttempts) && r.Failure?
    ensures script(first).Success? ==> n == 1 && r == script(first)
  {
  }

  /** The jittered sleeps the loop takes after its first `n` failed attempts, in order. */
  function Sleeps(retry: RetryConfig, hashes: seq<nat>, n: nat): (s: seq<Duration>)
    ensures |s| == n
  {
    if n == 0 then []
    else Sleeps(retry, hashes, n - 1) + [ApplyJitter(DelayAt(retry, n - 1), retry.jitterPercentage, HashAt(hashes, n - 1))]
  }

  /** The `k`-th sleep is the `k`-th delay, jittered by the `k`-th hash of the clock. */
  lemma {:induction false} SleepAt(retry: RetryConfig, hashes: seq<nat>, n: nat, k: nat)
    requires k < n
    ensures Sleeps(retry, hashes, n)[k] == ApplyJitter(DelayAt(retry, k), retry.jitterPercentage, HashAt(hashes, k))
  {
    if k < n - 1 {
      SleepAt(retry, hashes, n - 1, k);
    }
  }

  /**
   * The loop of `refresh_credentials` in both managers: call the provider; on success
   * return; on failure count the attempt, give up once `max_attempts` is reached, else sleep
   * the jittered delay (`HashAt(hashes, k)` stands in for the hash of the clock taken at the
   * `k`-th sleep) and back off. `slept` lists the sleeps in order.
   */
  method FetchWithRetry<T(==)>(provider: ScriptedProvider<T>, retry: RetryConfig, hashes: seq<nat>)
    returns (r: Result<T, RedisError>, slept: seq<Duration>)
    modifies provider
    ensures provider.calls >= old(provider.calls)
    ensures RetryOutcome(provider.script, old(provider.calls), retry.maxAttempts, provider.calls - old(provider.calls), r)
    ensures slept == Sleeps(retry, hashes, provider.calls - old(provider.calls) - 1)
  {
    ghost var first := provider.calls;
    var attempt: nat := 0;
    var delay := retry.initialDelay;
    slept := [];
    while true
      invariant attempt < AttemptBound(retry.maxAttempts)
      invariant provider.calls == first + attempt
      invariant AllFail(provider.script, first, attempt)
      invariant delay == DelayAt(retry, attempt)
      invariant slept == Sleeps(retry, hashes, attempt)
      decreases AttemptBound(retry.maxAttempts) - attempt
    {
      var outcome := provider.GetCredentials();
      if outcome.Success? {
        return outcome, slept;
      }
      attempt := attempt + 1;
      if attempt >= retry.maxAttempts {
        return outcome, slept;
      }
      var jittered := ApplyJitter(delay, retry.jitterPercentage, HashAt(hashes, attempt - 1));
      slept := slept + [jittered];
      delay := CalculateNextDelay(delay, retry.backoffMultiplier, retry.maxDelay);
    }
  }
}
