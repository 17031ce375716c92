/**
 Runs of the request-rate backoff: transient 429s, served requests, quiet gaps and unblocks,
 in any order.
 */
module Ladder {
  import opened Common
  import opened Health
  import Runtime

  /** What one account experiences; a hint is at most a minute ahead, as handleUsage guards. */
  datatype Signal =
    | RateLimited(now: Time, hint: Option<Time>)
    | Served(now: Time)
    | Unblocked(now: Time)

  /** What the signal does to the ladder. */
  datatype Move =
    | Burst       // a 429 while the throttle is active
    | Step        // the next rung
    | FirstStep   // the first rung again, the old streak having decayed
    | Escalation  // the sixth consecutive rung: exhaust instead
    | Release     // a request served after the throttle expired, or an unblock
    | Quiet

  predicate ValidHint(s: Signal) {
    s.now > 0 && (s.RateLimited? && s.hint.Some? ==> s.now < s.hint.value <= s.now + BACKOFF_CAP)
  }

  /**
   Valid hints, and handlers that read the clock one after the other. An unblock does not wait for a
   handler, so it may come between a handler's reading of the clock and its region.
   */
  ghost predicate WellFormed(signals: seq<Signal>) {
    && (forall i | 0 <= i < |signals| :: ValidHint(signals[i]))
    && forall i, j | 0 <= i < j < |signals| && !signals[i].Unblocked? && !signals[j].Unblocked? ::
         signals[i].now <= signals[j].now
  }

  function HintedAt(s: Signal): Time
    requires s.RateLimited?
  {
    if s.hint.Some? then s.hint.value else ZERO_TIME
  }

  /** The code's reaction: the new state, and whether the account is exhausted. */
  function React(h: HealthState, s: Signal, fallback: int): (HealthState, bool) {
    match s
    case RateLimited(now, hint) => WithThrottle(h, now, HintedAt(s), fallback)
    case Served(now) =>
      (if h.throttleStreak > 0 && h.throttledUntil <= now then WithoutThrottle(h) else h, false)
    case Unblocked(now) => (WithoutThrottle(h), false)
  }

  function StateAfter(signals: seq<Signal>, fallback: int): HealthState {
    if signals == [] then NO_IMPAIRMENT
    else React(StateAfter(signals[..|signals| - 1], fallback), signals[|signals| - 1], fallback).0
  }

  /** How the last signal relates to the deadline the earlier ones set, and to the rungs since the last reset. */
  function LastMove(signals: seq<Signal>, fallback: int): Move
    requires signals != []
    decreases |signals|, 0
  {
    var init, last := signals[..|signals| - 1], signals[|signals| - 1];
    MoveOf(StateAfter(init, fallback).throttledUntil, Rungs(init, fallback), last)
  }

  function MoveOf(deadline: Time, rungs: nat, s: Signal): Move {
    match s
    case RateLimited(now, _) =>
      if deadline > now then Burst
      else if rungs > 0 && now - deadline >= STREAK_DECAY then FirstStep
      else if rungs == 5 then Escalation
      else Step
    case Served(now) => if rungs > 0 && deadline <= now then Release else Quiet
    case Unblocked(_) => Release
  }

  /** The last signal is a 429 outside any throttle. */
  predicate Climbs(signals: seq<Signal>, fallback: int) {
    && signals != [] && signals[|signals| - 1].RateLimited?
    && StateAfter(signals[..|signals| - 1], fallback).throttledUntil <= signals[|signals| - 1].now
  }

  /** How many of the signals from an index on are such 429s. */
  function ClimbsSince(signals: seq<Signal>, from: nat, fallback: int): nat {
    if |signals| <= from then 0
    else ClimbsSince(signals[..|signals| - 1], from, fallback) + if Climbs(signals, fallback) then 1 else 0
  }

  /** Where counting begins: after the last release or escalation, or at the last 429 that found the streak decayed. */
  function LastReset(signals: seq<Signal>, fallback: int): (index: nat)
    ensures index <= |signals|
    decreases |signals|, 1
  {
    if signals == [] then 0
    else
      match LastMove(signals, fallback)
      case Release => |signals|
      case Escalation => |signals|
      case FirstStep => |signals| - 1
      case _ => LastReset(signals[..|signals| - 1], fallback)
  }

  /** The non-burst 429s since the last reset. */
  function Rungs(signals: seq<Signal>, fallback: int): nat
    decreases |signals|, 2
  {
    ClimbsSince(signals, LastReset(signals, fallback), fallback)
  }

  /** The time of the last 429. */
  function LastRateLimit(signals: seq<Signal>): Time {
    if signals == [] then ZERO_TIME
    else
      var last := signals[|signals| - 1];
      if last.RateLimited? then last.now else LastRateLimit(signals[..|signals| - 1])
  }

  lemma {:induction false} LastRateLimitBefore(signals: seq<Signal>, now: Time)
    requires now > 0 && forall i | 0 <= i < |signals| && signals[i].RateLimited? :: signals[i].now <= now
    ensures LastRateLimit(signals) <= now
  {
    if signals != [] {
      LastRateLimitBefore(signals[..|signals| - 1], now);
    }
  }

  lemma BackoffRange(streak: int, fallback: int)
    ensures Backoff(streak, fallback) <= BACKOFF_CAP
    ensures 0 < Backoff(streak, fallback)
    ensures fallback > 0 ==> Backoff(streak, fallback) <= fallback
  {
  }

  /** One more signal: what it does to the count since the last reset. */
  lemma RungsStep(signals: seq<Signal>, fallback: int)
    requires signals != []
    ensures var before, after := Rungs(signals[..|signals| - 1], fallback), Rungs(signals, fallback);
      match LastMove(signals, fallback)
      case Step => after == before + 1
      case FirstStep => after == 1
      case Escalation => after == 0
      case Release => after == 0
      case Burst => after == before
      case Quiet => after == before
  {
    assert ClimbsSince(signals[..|signals| - 1], |signals| - 1, fallback) == 0;
  }

  /**
   Over every run: the streak counts the rungs, stays in 0..5, and the deadline stays within a minute
   of the last 429.
   */
  lemma {:induction false} StreakCountsRungs(signals: seq<Signal>, fallback: int)
    requires WellFormed(signals)
    ensures var h := StateAfter(signals, fallback);
      && h.throttleStreak == Rungs(signals, fallback) && 0 <= h.throttleStreak <= MAX_THROTTLES
      && h.throttledUntil <= LastRateLimit(signals) + BACKOFF_CAP
      && (h.throttleStreak == 0 ==> h.throttledUntil == ZERO_TIME)
  {
    if signals != [] {
      var init, last := signals[..|signals| - 1], signals[|signals| - 1];
      StreakCountsRungs(init, fallback);
      RungsStep(signals, fallback);
      var h := StateAfter(init, fallback);
      if last.RateLimited? {
        LastRateLimitBefore(init, last.now);
        BackoffRange(h.throttleStreak + 1, fallback);
        BackoffRange(1, fallback);
      }
    }
  }

  lemma Appended(signals: seq<Signal>, s: Signal, fallback: int)
    ensures StateAfter(signals + [s], fallback) == React(StateAfter(signals, fallback), s, fallback).0
    ensures LastMove(signals + [s], fallback)
      == MoveOf(StateAfter(signals, fallback).throttledUntil, Rungs(signals, fallback), s)
    ensures LastMove(signals + [s], fallback) == Step ==> Rungs(signals + [s], fallback) == Rungs(signals, fallback) + 1
    ensures LastMove(signals + [s], fallback) == FirstStep ==> Rungs(signals + [s], fallback) == 1
  {
    assert (signals + [s])[..|signals|] == signals;
    RungsStep(signals + [s], fallback);
  }

  /**
   What each 429 of a run does. A burst never shortens the deadline and climbs no rung; an
   unhinted step onto rung k lasts exactly min(5s * 2^(k-1), 60s, fallback), a hinted one ends
   at its hint; and the account escalates on a 429 exactly when five consecutive rungs precede
   it and it is neither part of a burst nor late enough for the streak to have decayed.
   */
  lemma RateLimitMoves(signals: seq<Signal>, s: Signal, fallback: int)
    requires WellFormed(signals) && s.RateLimited? && ValidHint(s)
    ensures var before := StateAfter(signals, fallback);
      var (after, escalates) := React(before, s, fallback);
      var rungs := Rungs(signals + [s], fallback);
      && after == StateAfter(signals + [s], fallback)
      && (LastMove(signals + [s], fallback) == Burst ==>
            && after.throttleStreak == before.throttleStreak
            && after.throttledUntil >= before.throttledUntil > s.now)
      && (LastMove(signals + [s], fallback) in {Step, FirstStep} ==>
            && 1 <= rungs <= 5
            && after.throttledUntil == if s.hint.Some? then s.hint.value else s.now + Backoff(rungs, fallback))
      && (escalates <==> LastMove(signals + [s], fallback) == Escalation)
      && (escalates <==>
            Rungs(signals, fallback) == 5 && before.throttledUntil <= s.now < before.throttledUntil + STREAK_DECAY)
      && (escalates ==> after.throttleStreak == 0 && after.throttledUntil == ZERO_TIME)
  {
    StreakCountsRungs(signals, fallback);
    Appended(signals, s, fallback);
  }

  // ---------------------------------------------------------------- the runtime climbs this ladder

  /** The signal a usage record is to the ladder, if it is one. */
  function SignalOf(h: HealthState, r: Runtime.UsageRecord, now: Time): Option<Signal> {
    var hint := if r.hint.Some? then Some(r.hint.value.0) else None;
    if !r.failed then Some(Served(now))
    else if r.status == 429 && r.transient && !h.capacityExhausted && ValidHint(RateLimited(now, hint))
    then Some(RateLimited(now, hint))
    else None
  }

  /**
   A usage record moves an account on the ladder exactly as its signal does, and not at all when
   it is none; an escalation exhausts the account at least until the fallback cooldown is over or
   an authoritative reset ahead of it has come.
   */
  lemma UsageClimbs(h: HealthState, r: Runtime.UsageRecord, now: Time, c: Runtime.Config)
    requires now > 0 && Runtime.ValidRecord(r, now)
    ensures var after := Runtime.HealthAfterUsage(h, r, now, c);
      var s := SignalOf(h, r, now);
      var (climbed, escalates) := if s.Some? then React(h, s.value, c.fallbackCooldown) else (h, false);
      && after.throttledUntil == climbed.throttledUntil && after.throttleStreak == climbed.throttleStreak
      && (s.Some? && !escalates ==> after == climbed)
      && (escalates ==> after.exhaustedUntil == Max(h.exhaustedUntil,
            if h.capacityResetAt > now then h.capacityResetAt else now + c.fallbackCooldown))
  {
  }
}
