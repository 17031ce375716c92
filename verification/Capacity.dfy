/**
 What an account's capacity reset means (internal/providers/zai/health.go, windows.go): with no
 observation in force and no new usage, the account is out of capacity until then, and not then.
 */
module Capacity {
  import opened Common
  import opened Windows
  import opened Resets
  import opened Health
  import opened State
  import opened Runtime

  /** One estimated window as the health machine sees it. */
  ghost predicate Full(events: seq<CreditEvent>, t: Time, duration: int, credits: int, percent: int) {
    AtOrAboveThreshold(Consumed(events, t, duration), credits * CREDIT_SCALE, percent)
  }

  /** Out of capacity, as both windows are estimated at that time. */
  ghost predicate OutOfCapacity(q: QuotaState, a: Account, c: Config, t: Time) {
    || Full(q.events, t, FIVE_HOUR_WINDOW, a.fiveHourCredits, c.percent)
    || Full(q.events, t, WEEKLY_WINDOW, a.weeklyCredits, c.percent)
  }

  function ResetOf(events: seq<CreditEvent>, now: Time, duration: int, credits: int, percent: int): Time
    requires Sorted(events) && duration > 0
  {
    Window(events, now, duration, credits * CREDIT_SCALE, percent).resetsAt
  }

  /** The refreshed health says what the windows say. */
  lemma RefreshedIsOut(h: HealthState, q: QuotaState, a: Account, c: Config, t: Time)
    requires Sorted(q.events) && !Fresh(q, c, t)
    ensures RefreshedHealth(h, q, a, c, t).capacityExhausted <==> OutOfCapacity(q, a, c, t)
  {
  }

  /** A full window stays full until its reset, saturated or not, and an unsaturated one is not full from then on. */
  lemma FullUntilReset(events: seq<CreditEvent>, now: Time, duration: int, credits: int, percent: int, t: Time)
    requires Sorted(events) && Positive(events) && NoneAfter(events, now) && now > 0 && duration > 0
    requires ValidCreditBucket(credits) && 1 <= percent <= 100 && now <= t
    requires Full(events, now, duration, credits, percent)
    ensures now < ResetOf(events, now, duration, credits, percent)
    ensures t < ResetOf(events, now, duration, credits, percent) ==> Full(events, t, duration, credits, percent)
    ensures Sum(events, now - duration, now) <= MAX_INT64 && ResetOf(events, now, duration, credits, percent) <= t ==>
      !Full(events, t, duration, credits, percent)
  {
    var threshold := Threshold(credits * CREDIT_SCALE, percent);
    var reset := ResetTime(events, now, duration, threshold);
    ThresholdPositive(credits, percent);
    AlwaysAnnounced(events, now, duration, threshold);
    ResetTimeIsReset(events, now, duration, threshold);
    if t < reset {
      AboveBefore(events, now, duration, threshold, reset - duration, t);
    } else if Sum(events, now - duration, now) <= MAX_INT64 {
      UnsaturatedExact(events, now, duration, threshold);
      SumDeclines(events, duration, reset, t);
    }
  }

  /** A window that is not full stays so. */
  lemma StaysFree(events: seq<CreditEvent>, now: Time, duration: int, credits: int, percent: int, t: Time)
    requires Positive(events) && NoneAfter(events, now) && duration > 0 && now <= t
    requires ValidCreditBucket(credits) && !Full(events, now, duration, credits, percent)
    ensures !Full(events, t, duration, credits, percent)
  {
    SumDeclines(events, duration, now, t);
  }

  ghost predicate Unsaturated(events: seq<CreditEvent>, now: Time) {
    Sum(events, now - FIVE_HOUR_WINDOW, now) <= MAX_INT64 && Sum(events, now - WEEKLY_WINDOW, now) <= MAX_INT64
  }

  /** The later of the resets of the full windows. */
  ghost function LatestReset(q: QuotaState, a: Account, c: Config, now: Time): Time
    requires Sorted(q.events)
  {
    var five := ResetOf(q.events, now, FIVE_HOUR_WINDOW, a.fiveHourCredits, c.percent);
    var week := ResetOf(q.events, now, WEEKLY_WINDOW, a.weeklyCredits, c.percent);
    if !Full(q.events, now, WEEKLY_WINDOW, a.weeklyCredits, c.percent) then five
    else if !Full(q.events, now, FIVE_HOUR_WINDOW, a.fiveHourCredits, c.percent) then week
    else Max(five, week)
  }

  ghost predicate Settled(q: QuotaState, a: Account, c: Config, now: Time) {
    && Sorted(q.events) && Positive(q.events) && NoneAfter(q.events, now) && now > 0
    && ValidCreditBucket(a.fiveHourCredits) && ValidCreditBucket(a.weeklyCredits) && 1 <= c.percent <= 100
  }

  lemma CapacityReset(h: HealthState, q: QuotaState, a: Account, c: Config, now: Time)
    requires Settled(q, a, c, now) && !Fresh(q, c, now) && OutOfCapacity(q, a, c, now)
    ensures RefreshedHealth(h, q, a, c, now).capacityResetAt == LatestReset(q, a, c, now)
  {
    if Full(q.events, now, FIVE_HOUR_WINDOW, a.fiveHourCredits, c.percent) {
      FullUntilReset(q.events, now, FIVE_HOUR_WINDOW, a.fiveHourCredits, c.percent, now);
    }
    if Full(q.events, now, WEEKLY_WINDOW, a.weeklyCredits, c.percent) {
      FullUntilReset(q.events, now, WEEKLY_WINDOW, a.weeklyCredits, c.percent, now);
    }
  }

  lemma OutUntilLatest(q: QuotaState, a: Account, c: Config, now: Time, t: Time)
    requires Settled(q, a, c, now) && OutOfCapacity(q, a, c, now) && now <= t
    ensures var reset := LatestReset(q, a, c, now);
      && now < reset && (t < reset ==> OutOfCapacity(q, a, c, t))
      && (reset <= t && Unsaturated(q.events, now) ==> !OutOfCapacity(q, a, c, t))
  {
    if Full(q.events, now, FIVE_HOUR_WINDOW, a.fiveHourCredits, c.percent) {
      FullUntilReset(q.events, now, FIVE_HOUR_WINDOW, a.fiveHourCredits, c.percent, t);
    } else {
      StaysFree(q.events, now, FIVE_HOUR_WINDOW, a.fiveHourCredits, c.percent, t);
    }
    if Full(q.events, now, WEEKLY_WINDOW, a.weeklyCredits, c.percent) {
      FullUntilReset(q.events, now, WEEKLY_WINDOW, a.weeklyCredits, c.percent, t);
    } else {
      StaysFree(q.events, now, WEEKLY_WINDOW, a.weeklyCredits, c.percent, t);
    }
  }

  /**
   With no fresh observation and no later events, an account out of capacity stays so at every time
   before its capacity reset, for either window or both, saturated or not; and with unsaturated
   sums it has capacity again at that time and ever after.
   */
  lemma CapacityResetExact(h: HealthState, q: QuotaState, a: Account, c: Config, now: Time, t: Time)
    requires Sorted(q.events) && Positive(q.events) && NoneAfter(q.events, now) && now > 0 && now <= t
    requires ValidAccount(a) && ValidConfig(c) && !Fresh(q, c, now) && !Fresh(q, c, t)
    requires RefreshedHealth(h, q, a, c, now).capacityExhausted
    ensures var reset := RefreshedHealth(h, q, a, c, now).capacityResetAt;
      && now < reset
      && (t < reset ==> RefreshedHealth(h, q, a, c, t).capacityExhausted)
      && (reset <= t && Unsaturated(q.events, now) ==> !RefreshedHealth(h, q, a, c, t).capacityExhausted)
  {
    RefreshedIsOut(h, q, a, c, now);
    RefreshedIsOut(h, q, a, c, t);
    CapacityReset(h, q, a, c, now);
    OutUntilLatest(q, a, c, now, t);
  }
}
