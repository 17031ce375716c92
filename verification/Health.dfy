/**
 Account health (internal/providers/zai/health.go, failures.go): suspension and exhaustion
 deadlines, the request-rate backoff, and what of them survives a restart.
 */
module Health {
  import opened Common
  import opened Windows

  const BACKOFF_BASE := 5 * SECOND
  const BACKOFF_CAP := MINUTE
  const MAX_THROTTLES := 5
  const STREAK_DECAY := 5 * MINUTE
  const MAX_HINT_FUTURE := 8 * DAY
  const REASON_LIMIT := 96

  datatype HealthState = HealthState(
    suspendedUntil: Time,
    exhaustedUntil: Time,
    exhaustedReason: string,
    capacityExhausted: bool,
    capacityResetAt: Time,
    throttledUntil: Time,
    throttleStreak: int)

  const NO_IMPAIRMENT := HealthState(ZERO_TIME, ZERO_TIME, "", false, ZERO_TIME, ZERO_TIME, 0)

  datatype PersistedHealth = PersistedHealth(suspendedUntil: Time, exhaustedUntil: Time, exhaustedReason: string)

  datatype Status = Healthy | Exhausted | Suspended | Disabled | Throttled

  datatype Assessment = Assessment(status: Status, resetAt: Time)

  // ---------------------------------------------------------------- bounded text

  predicate Space(c: char) {
    c == ' ' || c == '\t' || c == '\n' || c == '\r'
  }

  ghost predicate Blank(s: string) {
    forall i | 0 <= i < |s| :: Space(s[i])
  }

  /** The words of a text joined by single spaces: between words, and inside one. */
  function Words(s: string): string
    decreases |s|, 1
  {
    if s == "" then "" else if Space(s[0]) then Words(s[1..]) else Word(s)
  }

  function Word(s: string): string
    decreases |s|, 0
  {
    if s == "" then ""
    else if Space(s[0]) then (if Words(s[1..]) == "" then "" else " " + Words(s[1..]))
    else [s[0]] + Word(s[1..])
  }

  function Bounded(s: string, limit: nat): (r: string)
    ensures |r| <= limit
  {
    if |Words(s)| > limit then Words(s)[..limit] else Words(s)
  }

  lemma {:induction false} BoundedNotBlank(s: string, limit: nat)
    requires !Blank(s) && limit > 0
    ensures !Blank(Bounded(s, limit))
    decreases |s|
  {
    if Space(s[0]) {
      var i :| 0 <= i < |s| && !Space(s[i]);
      assert s[1..][i - 1] == s[i];
      BoundedNotBlank(s[1..], limit);
    } else {
      assert Words(s) == [s[0]] + Word(s[1..]);
      assert Bounded(s, limit)[0] == s[0];
    }
  }

  // ---------------------------------------------------------------- deadlines

  function WithSuspension(h: HealthState, resetAt: Time): HealthState {
    if resetAt > h.suspendedUntil then h.(suspendedUntil := resetAt) else h
  }

  function WithExhaustion(h: HealthState, resetAt: Time, reason: string): HealthState {
    if resetAt > h.exhaustedUntil
    then h.(exhaustedUntil := resetAt, exhaustedReason := Bounded(reason, REASON_LIMIT)) else h
  }

  function WithoutThrottle(h: HealthState): HealthState {
    h.(throttledUntil := ZERO_TIME, throttleStreak := 0)
  }

  function Pow2(n: nat): (r: int)
    ensures r >= 1
  {
    if n == 0 then 1 else 2 * Pow2(n - 1)
  }

  /** The k-th step of the ladder: 5s, 10s, 20s, 40s, 60s, never above a positive fallback. */
  function Backoff(streak: int, fallback: int): int {
    var delay := Min(BACKOFF_BASE * Pow2(Max(streak - 1, 0)), BACKOFF_CAP);
    if fallback > 0 then Min(delay, fallback) else delay
  }

  /**
   One transient 429: the new state, and whether the account is to be exhausted instead. `hintedAt` is
   zero without a hint.
   */
  function WithThrottle(h: HealthState, now: Time, hintedAt: Time, fallback: int): (HealthState, bool) {
    if h.throttledUntil > now then (h.(throttledUntil := Max(h.throttledUntil, hintedAt)), false)
    else
      var streak := if h.throttleStreak > 0 && now - h.throttledUntil >= STREAK_DECAY then 0 else h.throttleStreak;
      if streak >= MAX_THROTTLES then (WithoutThrottle(h), true)
      else (h.(throttleStreak := streak + 1,
               throttledUntil := if hintedAt > now then hintedAt else now + Backoff(streak + 1, fallback)), false)
  }

  function RateLimitReset(now: Time, h: HealthState, fallback: int): (Time, string) {
    if h.capacityResetAt > now then (h.capacityResetAt, "authoritative quota reset")
    else (now + fallback, "conservative rate-limit cooldown")
  }

  // ---------------------------------------------------------------- reset hints

  /** A reset hint is believed when it lies ahead, by at most eight days. */
  function ValidResetAt(resetAt: Time, now: Time): Option<Time> {
    if resetAt <= now || resetAt > now + MAX_HINT_FUTURE then None else Some(resetAt)
  }

  /** A Retry-After value (section 10.2.3 of RFC 9110): delay seconds, an HTTP date, or neither. */
  datatype RetryAfter = DelaySeconds(n: int) | HttpDate(at: Time) | Unreadable

  function ParseRetryAfter(value: RetryAfter, now: Time): (hint: Option<Time>)
    ensures forall at :: hint == Some(at) <==>
      && now < at <= now + MAX_HINT_FUTURE
      && (value == HttpDate(at) || (value.DelaySeconds? && at == now + value.n * SECOND))
  {
    match value
    case DelaySeconds(n) =>
      if n <= 0 || n > MAX_HINT_FUTURE / SECOND then None else ValidResetAt(now + n * SECOND, now)
    case HttpDate(at) => ValidResetAt(at, now)
    case Unreadable => None
  }

  // ---------------------------------------------------------------- persistence

  function Persist(h: HealthState, now: Time): PersistedHealth {
    PersistedHealth(
      if h.suspendedUntil > now then h.suspendedUntil else ZERO_TIME,
      if h.exhaustedUntil > now then h.exhaustedUntil else ZERO_TIME,
      if h.exhaustedUntil > now then Bounded(h.exhaustedReason, REASON_LIMIT) else "")
  }

  predicate WorthPersisting(p: PersistedHealth) {
    p.suspendedUntil != ZERO_TIME || p.exhaustedUntil != ZERO_TIME
  }

  function Restore(p: PersistedHealth, now: Time): HealthState {
    NO_IMPAIRMENT.(
      suspendedUntil := if p.suspendedUntil > now then p.suspendedUntil else ZERO_TIME,
      exhaustedUntil := if p.exhaustedUntil > now then p.exhaustedUntil else ZERO_TIME,
      exhaustedReason := if p.exhaustedUntil > now then Bounded(p.exhaustedReason, REASON_LIMIT) else "")
  }

  // ---------------------------------------------------------------- assessment

  function CapacityHealth(h: HealthState, fiveHour: QuotaWindow, weekly: QuotaWindow, percent: int): HealthState {
    var five := AtOrAboveThreshold(fiveHour.consumed, fiveHour.bucket, percent);
    var week := AtOrAboveThreshold(weekly.consumed, weekly.bucket, percent);
    var first := if five then fiveHour.resetsAt else ZERO_TIME;
    h.(capacityExhausted := five || week,
       capacityResetAt := if week && (first == ZERO_TIME || weekly.resetsAt > first) then weekly.resetsAt else first)
  }

  function Assess(h: HealthState, disabled: bool, now: Time): Assessment {
    if disabled then Assessment(Disabled, ZERO_TIME)
    else if h.suspendedUntil > now then Assessment(Suspended, h.suspendedUntil)
    else if h.exhaustedUntil > now then Assessment(Exhausted, h.exhaustedUntil)
    else if h.capacityExhausted then
      Assessment(Exhausted, if h.capacityResetAt > now then h.capacityResetAt else ZERO_TIME)
    else if h.throttledUntil > now then Assessment(Throttled, h.throttledUntil)
    else Assessment(Healthy, ZERO_TIME)
  }

  /** After a restart, suspension and exhaustion are at every time what they would have been without it. */
  lemma RestartKeepsDeadlines(h: HealthState, saved: Time, restored: Time, now: Time)
    requires 0 < saved <= restored <= now
    ensures var back := Restore(Persist(h, saved), restored);
      && (back.suspendedUntil > now <==> h.suspendedUntil > now)
      && (back.exhaustedUntil > now <==> h.exhaustedUntil > now)
      && (h.suspendedUntil > now ==> back.suspendedUntil == h.suspendedUntil)
      && (h.exhaustedUntil > now ==> back.exhaustedUntil == h.exhaustedUntil)
      && (h.exhaustedUntil > now && !Blank(h.exhaustedReason) ==> !Blank(back.exhaustedReason))
      && (WorthPersisting(Persist(h, saved)) <==> h.suspendedUntil > saved || h.exhaustedUntil > saved)
      && back.throttledUntil == ZERO_TIME && back.throttleStreak == 0
  {
    if !Blank(h.exhaustedReason) {
      BoundedNotBlank(h.exhaustedReason, REASON_LIMIT);
      BoundedNotBlank(Bounded(h.exhaustedReason, REASON_LIMIT), REASON_LIMIT);
    }
  }

  // ---------------------------------------------------------------- the code, field by field

  /** The doubling loop computes the ladder in closed form. */
  method RequestRateBackoff(streak: int, fallback: int) returns (delay: int)
    ensures delay == Backoff(streak, fallback)
    ensures fallback > 0 ==> delay <= fallback
    ensures delay <= BACKOFF_CAP
  {
    delay := BACKOFF_BASE;
    var step := 1;
    while step < streak && delay < BACKOFF_CAP
      invariant 1 <= step && (step == 1 || step <= streak)
      invariant delay == BACKOFF_BASE * Pow2(step - 1)
    {
      delay := delay * 2;
      step := step + 1;
    }
    Pow2Monotone(step - 1, Max(streak - 1, 0));
    delay := Min(delay, BACKOFF_CAP);
    if fallback > 0 {
      delay := Min(delay, fallback);
    }
  }

  lemma {:induction false} Pow2Monotone(m: nat, n: nat)
    requires m <= n
    ensures Pow2(m) <= Pow2(n)
  {
    if m < n {
      Pow2Monotone(m, n - 1);
    }
  }

  /** The receiver whose fields the handlers update in place. */
  class AccountHealth {
    var suspendedUntil: Time
    var exhaustedUntil: Time
    var exhaustedReason: string
    var capacityExhausted: bool
    var capacityResetAt: Time
    var throttledUntil: Time
    var throttleStreak: int

    function State(): HealthState
      reads this
    {
      HealthState(suspendedUntil, exhaustedUntil, exhaustedReason, capacityExhausted, capacityResetAt,
                  throttledUntil, throttleStreak)
    }

    method SuspendUntil(resetAt: Time)
      modifies this`suspendedUntil
      ensures State() == WithSuspension(old(State()), resetAt)
    {
      if resetAt > suspendedUntil {
        suspendedUntil := resetAt;
      }
    }

    method ExhaustUntil(resetAt: Time, reason: string)
      modifies this`exhaustedUntil, this`exhaustedReason
      ensures State() == WithExhaustion(old(State()), resetAt, reason)
    {
      if resetAt > exhaustedUntil {
        exhaustedUntil := resetAt;
        exhaustedReason := Bounded(reason, REASON_LIMIT);
      }
    }

    method ClearThrottle()
      modifies this`throttledUntil, this`throttleStreak
      ensures State() == WithoutThrottle(old(State()))
    {
      throttledUntil := ZERO_TIME;
      throttleStreak := 0;
    }

    method Throttle(now: Time, hintedAt: Time, fallback: int) returns (escalate: bool)
      modifies this`throttledUntil, this`throttleStreak
      ensures (State(), escalate) == WithThrottle(old(State()), now, hintedAt, fallback)
    {
      if throttledUntil > now {
        if hintedAt > throttledUntil {
          throttledUntil := hintedAt;
        }
        return false;
      }
      if throttleStreak > 0 && now - throttledUntil >= STREAK_DECAY {
        throttleStreak := 0;
      }
      if throttleStreak >= MAX_THROTTLES {
        ClearThrottle();
        return true;
      }
      throttleStreak := throttleStreak + 1;
      var delay := RequestRateBackoff(throttleStreak, fallback);
      throttledUntil := if hintedAt > now then hintedAt else now + delay;
      escalate := false;
    }
  }
}
