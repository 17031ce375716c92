/**
 What a usage record does to an account's deadlines (internal/providers/zai/runtime.go), told by the
 record and the account alone.
 */
module Failures {
  import opened Common
  import opened Health
  import opened Runtime

  predicate AuthenticationFailure(r: UsageRecord) {
    r.failed && (r.status == 401 || r.status == 403)
  }

  predicate RateLimitFailure(r: UsageRecord) {
    r.failed && r.status == 429
  }

  /** A 429 that is no request-rate code, finds no capacity left, or hints at more than a minute. */
  predicate Conservative(h: HealthState, r: UsageRecord, now: Time) {
    RateLimitFailure(r)
      && (!r.transient || h.capacityExhausted || (r.hint.Some? && r.hint.value.0 > now + BACKOFF_CAP))
  }

  /** A request-rate 429 after five rungs, outside any throttle and before the streak has decayed. */
  predicate Escalating(h: HealthState, r: UsageRecord, now: Time) {
    && RateLimitFailure(r) && !Conservative(h, r, now)
    && h.throttleStreak >= MAX_THROTTLES && h.throttledUntil <= now < h.throttledUntil + STREAK_DECAY
  }

  predicate Exhausting(h: HealthState, r: UsageRecord, now: Time) {
    Conservative(h, r, now) || Escalating(h, r, now)
  }

  /** The hint, unless it was meant for the ladder; else the quota reset ahead; else the fallback cooldown. */
  function ExhaustionEnd(h: HealthState, r: UsageRecord, now: Time, c: Config): Time {
    if Conservative(h, r, now) && r.hint.Some? then r.hint.value.0
    else if h.capacityResetAt > now then h.capacityResetAt
    else now + c.fallbackCooldown
  }

  /** Every deadline after the record; the rungs of the ladder apart, which belong to the throttle. */
  ghost predicate Outcome(h: HealthState, r: UsageRecord, now: Time, c: Config, after: HealthState) {
    && after.suspendedUntil
       == (if AuthenticationFailure(r) then Max(h.suspendedUntil, now + c.suspendDuration) else h.suspendedUntil)
    && after.exhaustedUntil
       == (if Exhausting(h, r, now) then Max(h.exhaustedUntil, ExhaustionEnd(h, r, now, c)) else h.exhaustedUntil)
    && (after.exhaustedUntil == h.exhaustedUntil ==> after.exhaustedReason == h.exhaustedReason)
    && (after.exhaustedUntil > h.exhaustedUntil && Conservative(h, r, now) && r.hint.Some? ==>
          after.exhaustedReason == Bounded(r.hint.value.1, REASON_LIMIT))
    && after.capacityExhausted == h.capacityExhausted && after.capacityResetAt == h.capacityResetAt
    && (r.failed && (!RateLimitFailure(r) || Conservative(h, r, now)) ==> SameThrottle(h, after))
    && (Escalating(h, r, now) ==> after.throttledUntil == ZERO_TIME && after.throttleStreak == 0)
    && (r.failed && !AuthenticationFailure(r) && !RateLimitFailure(r) ==> after == h)
  }

  predicate SameThrottle(h: HealthState, after: HealthState) {
    after.throttledUntil == h.throttledUntil && after.throttleStreak == h.throttleStreak
  }

  /** Suspensions and exhaustions are set exactly by these failures, and to exactly these ends. */
  lemma UsageOutcome(h: HealthState, r: UsageRecord, now: Time, c: Config)
    ensures Outcome(h, r, now, c, HealthAfterUsage(h, r, now, c))
  {
  }
}
