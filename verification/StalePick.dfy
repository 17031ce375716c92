/**
 A pick that read the clock just before the fifth step of an account's backoff, and got the lock
 just after it, announces sixty-one seconds: a run of the protocol that leads there.
 */
module StalePick {
  import opened Common
  import opened Machine
  import opened Store
  import opened Windows
  import opened Resets
  import opened Health
  import opened State
  import opened Runtime
  import opened Protocol
  import opened Scheduler

  /** A request-rate failure without a hint and without usage. */
  function Failure(auth: string): UsageRecord {
    UsageRecord(auth, true, 429, true, None, ZERO_TIME, true, seq(64, _ => '0'), None)
  }

  /** The account has climbed k rungs, nothing else is wrong with it, and its throttle ends at `until`. */
  ghost predicate Poised(s: Snapshot, auth: string, k: nat, until: Time) {
    auth in s.byAuthId && PoisedAccount(s, s.byAuthId[auth], k, until)
  }

  ghost predicate PoisedAccount(s: Snapshot, id: string, k: nat, until: Time) {
    && ValidConfig(s.config) && s.config.fallbackCooldown >= BACKOFF_CAP
    && id in s.byIdentity && id in s.quota && id in s.health
    && PoisedState(s.quota[id], s.health[id], s.byIdentity[id], k, until)
  }

  predicate PoisedState(q: QuotaState, h: HealthState, a: Account, k: nat, until: Time) {
    && ValidCreditBucket(a.fiveHourCredits) && ValidCreditBucket(a.weeklyCredits) && !a.disabled
    && q.events == [] && q.authoritative.None?
    && h == NO_IMPAIRMENT.(throttleStreak := k, throttledUntil := until)
  }

  /** An empty ledger leaves all capacity. */
  lemma NoCapacityUsed(h: HealthState, q: QuotaState, a: Account, c: Config, now: Time)
    requires q.events == [] && q.authoritative.None? && ValidConfig(c)
    requires ValidCreditBucket(a.fiveHourCredits) && ValidCreditBucket(a.weeklyCredits)
    ensures RefreshedHealth(h, q, a, c, now) == h.(capacityExhausted := false, capacityResetAt := ZERO_TIME)
  {
    ThresholdPositive(a.fiveHourCredits, c.percent);
    ThresholdPositive(a.weeklyCredits, c.percent);
  }

  function Rung(k: nat): int {
    if k == 1 then 5 * SECOND else if k == 2 then 10 * SECOND else if k == 3 then 20 * SECOND
    else if k == 4 then 40 * SECOND else 60 * SECOND
  }

  lemma RungIsBackoff(k: nat, fallback: int)
    requires 1 <= k <= 5 && fallback >= BACKOFF_CAP
    ensures Backoff(k, fallback) == Rung(k)
  {
    assert Pow2(0) == 1 && Pow2(1) == 2 && Pow2(2) == 4 && Pow2(3) == 8 && Pow2(4) == 16;
  }

  /** A failure once the throttle has just ended climbs one rung. */
  lemma FailureClimbs(s: Snapshot, auth: string, k: nat, until: Time, now: Time)
    requires Poised(s, auth, k, until) && k <= 4 && now > 0 && until == (if k == 0 then ZERO_TIME else now)
    ensures var after := Usage(s, s.byAuthId[auth], Failure(auth), now);
      Poised(after, auth, k + 1, now + Rung(k + 1))
  {
    var id, r := s.byAuthId[auth], Failure(auth);
    var q := QuotaAfterUsage(s.quota[id], r, now, s.config.retention);
    RungIsBackoff(k + 1, s.config.fallbackCooldown);
    assert q.events == [] && q.authoritative.None?;
    NoCapacityUsed(HealthAfterUsage(s.health[id], r, now, s.config), q, s.byIdentity[id], s.config, now);
  }

  // ---------------------------------------------------------------- the run

  /** A failure, its successful write, and the time until its throttle runs out. */
  function Round(auth: string, now: Time, later: Time): seq<Step> {
    [UsageStep(Failure(auth), now), UsageWrite(Committed), Tick(later)]
  }

  /** A round from each of the times to the next. */
  function Climb(auth: string, times: seq<Time>): seq<Step> {
    if |times| < 2 then [] else Round(auth, times[0], times[1]) + Climb(auth, times[1..])
  }

  /** Four failures, each at the end of the throttle before. */
  function Times(start: Time): seq<Time> {
    [start, start + 5 * SECOND, start + 15 * SECOND, start + 35 * SECOND, start + 75 * SECOND]
  }

  /** What of the world matters here. */
  datatype Core = Core(live: Snapshot, clock: Time, stopped: bool, busy: bool)

  function CoreOf(w: World): Core {
    Core(w.live, w.clock, w.stopped, w.handler.Some?)
  }

  ghost predicate Usable(s: Snapshot, record: UsageRecord, now: Time) {
    && record.authId in s.byAuthId
    && var id := s.byAuthId[record.authId];
       && id in s.quota && id in s.health && id in s.byIdentity
       && Sorted(QuotaAfterUsage(s.quota[id], record, now, s.config.retention).events)
  }

  /** What the three steps of a round do to it. */
  ghost function Move(c: Core, step: Step): Core {
    match step
    case UsageStep(record, now) =>
      if Usable(c.live, record, now)
      then c.(live := Usage(c.live, c.live.byAuthId[record.authId], record, now), busy := true) else c
    case UsageWrite(_) => c.(busy := false)
    case Tick(now) => c.(clock := now)
    case _ => c
  }

  /** No handler is at work, and it is that time. */
  ghost predicate Idle(c: Core, auth: string, now: Time, busy: bool) {
    !c.stopped && c.busy == busy && c.clock == now && auth in c.live.byAuthId
  }

  ghost predicate Rested(w: World, auth: string, now: Time) {
    Good(w) && Idle(CoreOf(w), auth, now, false)
  }

  ghost predicate Ascending(times: seq<Time>) {
    && (forall i | 0 <= i < |times| :: SensibleClock(times[i]))
    && (forall i | 0 <= i < |times| - 1 :: times[i] <= times[i + 1])
  }

  lemma FailureValid(auth: string, now: Time)
    ensures ValidRecord(Failure(auth), now)
  {
  }

  // ---------------------------------------------------------------- the protocol does just that

  lemma UsageMoves(w: World, record: UsageRecord, now: Time)
    requires Good(w) && Enabled(w, UsageStep(record, now)) && record.authId in w.live.byAuthId
    ensures CoreOf(Next(w, UsageStep(record, now))) == Move(CoreOf(w), UsageStep(record, now))
  {
    UsageKeeps(w.live, w.live.byAuthId[record.authId], record, now, w.clock);
  }

  lemma WriteMoves(w: World)
    requires Good(w) && w.handler.Some? && !w.stopped
    ensures CoreOf(Next(w, UsageWrite(Committed))) == Move(CoreOf(w), UsageWrite(Committed))
  {
  }

  lemma TickMoves(w: World, now: Time)
    requires Good(w) && w.clock <= now && SensibleClock(now)
    ensures CoreOf(Next(w, Tick(now))) == Move(CoreOf(w), Tick(now))
  {
  }

  lemma MovesIdle(c: Core, auth: string, now: Time, later: Time)
    requires auth in c.live.byAuthId
    ensures Idle(c, auth, now, false) && Usable(c.live, Failure(auth), now) ==>
      Idle(Move(c, UsageStep(Failure(auth), now)), auth, now, true)
    ensures Idle(c, auth, now, true) ==> Idle(Move(c, UsageWrite(Committed)), auth, now, false)
    ensures Idle(c, auth, now, false) ==> Idle(Move(c, Tick(later)), auth, later, false)
  {
  }

  lemma FailureStep(w: World, auth: string, now: Time)
    requires Rested(w, auth, now)
    ensures var step := UsageStep(Failure(auth), now);
      && CoreOf(Next(w, step)) == Move(CoreOf(w), step)
      && Good(Next(w, step)) && Idle(CoreOf(Next(w, step)), auth, now, true)
  {
    FailureValid(auth, now);
    UsageMoves(w, Failure(auth), now);
    NextGood(w, UsageStep(Failure(auth), now));
    UsageKeeps(w.live, w.live.byAuthId[auth], Failure(auth), now, w.clock);
    MovesIdle(CoreOf(w), auth, now, now);
  }

  lemma WriteStep(w: World, auth: string, now: Time)
    requires Good(w) && Idle(CoreOf(w), auth, now, true)
    ensures var step := UsageWrite(Committed);
      CoreOf(Next(w, step)) == Move(CoreOf(w), step) && Rested(Next(w, step), auth, now)
  {
    WriteMoves(w);
    NextGood(w, UsageWrite(Committed));
    MovesIdle(CoreOf(w), auth, now, now);
  }

  lemma TickStep(w: World, auth: string, now: Time, later: Time)
    requires Rested(w, auth, now) && now <= later && SensibleClock(later)
    ensures var step := Tick(later);
      CoreOf(Next(w, step)) == Move(CoreOf(w), step) && Rested(Next(w, step), auth, later)
  {
    TickMoves(w, later);
    NextGood(w, Tick(later));
    MovesIdle(CoreOf(w), auth, now, later);
  }

  /** A machine that does to the core what is said above, for this credential's failures. */
  ghost predicate Follows(good: World -> bool, next: (World, Step) -> World, auth: string) {
    && (forall x: World, now: Time {:trigger next(x, UsageStep(Failure(auth), now))}
          | good(x) && Idle(CoreOf(x), auth, now, false) ::
          var y := next(x, UsageStep(Failure(auth), now));
          good(y) && CoreOf(y) == Move(CoreOf(x), UsageStep(Failure(auth), now)) && Idle(CoreOf(y), auth, now, true))
    && (forall x: World, now: Time {:trigger next(x, UsageWrite(Committed)), Idle(CoreOf(x), auth, now, true)}
          | good(x) && Idle(CoreOf(x), auth, now, true) ::
          var y := next(x, UsageWrite(Committed));
          good(y) && CoreOf(y) == Move(CoreOf(x), UsageWrite(Committed)) && Idle(CoreOf(y), auth, now, false))
    && (forall x: World, now: Time, later: Time {:trigger next(x, Tick(later)), Idle(CoreOf(x), auth, now, false)}
          | good(x) && Idle(CoreOf(x), auth, now, false) && now <= later && SensibleClock(later) ::
          var y := next(x, Tick(later));
          good(y) && CoreOf(y) == Move(CoreOf(x), Tick(later)) && Idle(CoreOf(y), auth, later, false))
  }

  lemma RoundProjects(good: World -> bool, next: (World, Step) -> World, w: World, auth: string, now: Time, later: Time)
    requires Follows(good, next, auth) && good(w) && Idle(CoreOf(w), auth, now, false)
    requires now <= later && SensibleClock(later)
    ensures var end := Run(next, w, Round(auth, now, later));
      && good(end) && Idle(CoreOf(end), auth, later, false)
      && CoreOf(end) == Run(Move, CoreOf(w), Round(auth, now, later))
  {
    var steps := Round(auth, now, later);
    assert steps[1..] == [steps[1], steps[2]] && steps[1..][1..] == [steps[2]] && [steps[2]][1..] == [];
    var a := next(w, steps[0]);
    var b := next(a, steps[1]);
    RunCons(next, w, steps[0], steps[1..]);
    RunCons(next, a, steps[1], [steps[2]]);
    RunCons(next, b, steps[2], []);
    RunCons(Move, CoreOf(w), steps[0], steps[1..]);
    RunCons(Move, CoreOf(a), steps[1], [steps[2]]);
    RunCons(Move, CoreOf(b), steps[2], []);
  }

  lemma {:induction false} ClimbProjects(
      good: World -> bool, next: (World, Step) -> World, w: World, auth: string, times: seq<Time>)
    requires Follows(good, next, auth) && times != [] && Ascending(times)
    requires good(w) && Idle(CoreOf(w), auth, times[0], false)
    ensures var end := Run(next, w, Climb(auth, times));
      && good(end) && Idle(CoreOf(end), auth, times[|times| - 1], false)
      && CoreOf(end) == Run(Move, CoreOf(w), Climb(auth, times))
    decreases |times|
  {
    if |times| >= 2 {
      var round, rest := Round(auth, times[0], times[1]), Climb(auth, times[1..]);
      RoundProjects(good, next, w, auth, times[0], times[1]);
      RunSplit(next, w, round, rest);
      RunSplit(Move, CoreOf(w), round, rest);
      ClimbProjects(good, next, Run(next, w, round), auth, times[1..]);
    }
  }

  lemma ProtocolFollows(auth: string)
    ensures Follows(Good, Next, auth)
  {
    forall x: World, now: Time {:trigger Next(x, UsageStep(Failure(auth), now))}
      | Good(x) && Idle(CoreOf(x), auth, now, false)
      ensures var y := Next(x, UsageStep(Failure(auth), now));
        Good(y) && CoreOf(y) == Move(CoreOf(x), UsageStep(Failure(auth), now)) && Idle(CoreOf(y), auth, now, true)
    {
      FailureStep(x, auth, now);
    }
    forall x: World, now: Time {:trigger Next(x, UsageWrite(Committed)), Idle(CoreOf(x), auth, now, true)}
      | Good(x) && Idle(CoreOf(x), auth, now, true)
      ensures var y := Next(x, UsageWrite(Committed));
        Good(y) && CoreOf(y) == Move(CoreOf(x), UsageWrite(Committed)) && Idle(CoreOf(y), auth, now, false)
    {
      WriteStep(x, auth, now);
    }
    forall x: World, now: Time, later: Time {:trigger Next(x, Tick(later)), Idle(CoreOf(x), auth, now, false)}
      | Good(x) && Idle(CoreOf(x), auth, now, false) && now <= later && SensibleClock(later)
      ensures var y := Next(x, Tick(later));
        Good(y) && CoreOf(y) == Move(CoreOf(x), Tick(later)) && Idle(CoreOf(y), auth, later, false)
    {
      TickStep(x, auth, now, later);
    }
  }

  // ---------------------------------------------------------------- and the account climbs

  /** Ready for the next failure after k rounds. */
  ghost predicate Ready(c: Core, auth: string, k: nat) {
    Idle(c, auth, c.clock, false) && c.clock > 0 && Poised(c.live, auth, k, if k == 0 then ZERO_TIME else c.clock)
  }

  lemma ReadyFailure(c: Core, auth: string, k: nat)
    requires Ready(c, auth, k) && k <= 4
    ensures var after := Move(c, UsageStep(Failure(auth), c.clock));
      Idle(after, auth, c.clock, true) && Poised(after.live, auth, k + 1, c.clock + Rung(k + 1))
  {
    FailureClimbs(c.live, auth, k, if k == 0 then ZERO_TIME else c.clock, c.clock);
  }

  lemma ReadyRound(c: Core, auth: string, k: nat)
    requires Ready(c, auth, k) && k <= 3
    ensures Ready(Run(Move, c, Round(auth, c.clock, c.clock + Rung(k + 1))), auth, k + 1)
    ensures Run(Move, c, Round(auth, c.clock, c.clock + Rung(k + 1))).clock == c.clock + Rung(k + 1)
  {
    ReadyFailure(c, auth, k);
    var steps := Round(auth, c.clock, c.clock + Rung(k + 1));
    assert steps[1..] == [steps[1], steps[2]] && steps[1..][1..] == [steps[2]] && [steps[2]][1..] == [];
    RunCons(Move, c, steps[0], steps[1..]);
    RunCons(Move, Move(c, steps[0]), steps[1], [steps[2]]);
    RunCons(Move, Move(Move(c, steps[0]), steps[1]), steps[2], []);
  }

  /** The rest of the climb from the k-th time on. */
  lemma {:induction false} ReadyClimb(c: Core, auth: string, start: Time, k: nat)
    requires Ready(c, auth, k) && k <= 4 && c.clock == Times(start)[k]
    ensures var end := Run(Move, c, Climb(auth, Times(start)[k..]));
      Ready(end, auth, 4) && end.clock == start + 75 * SECOND
    decreases 4 - k
  {
    if k < 4 {
      var times := Times(start)[k..];
      assert times[1..] == Times(start)[k + 1..];
      var round := Round(auth, times[0], times[1]);
      ReadyRound(c, auth, k);
      RunSplit(Move, c, round, Climb(auth, times[1..]));
      ReadyClimb(Run(Move, c, round), auth, start, k + 1);
    }
  }

  // ---------------------------------------------------------------- the pick

  lemma PickOfThrottled(s: Snapshot, c: Candidate, read: Time, until: Time)
    requires Complete(s) && Poised(s, c.key, 5, until) && 0 < read && until == read + BACKOFF_CAP + 1
    ensures Expected(false, s, [c], read, RateLimited(61))
  {
    var id := s.byAuthId[c.key];
    NoCapacityUsed(s.health[id], s.quota[id], s.byIdentity[id], s.config, read);
    assert Verdict(s, c, read) == Assessment(Throttled, until);
    assert [c][..0] == [] && Managed(s, [c][0]);
    assert EarliestThrottle(s, [], read) == ZERO_TIME && EarliestThrottle(s, [c], read) == until;
    assert HealthyIds(s, [c], read) == [] + [];
  }

  /** A pick that had read the clock one nanosecond before announces sixty-one seconds. */
  ghost predicate Announces61(c: Core, candidate: Candidate) {
    Complete(c.live) && Expected(c.stopped, c.live, [candidate], c.clock - 1, RateLimited(61))
  }

  /** The fifth failure has just happened. */
  lemma FifthFailure(c: Core, candidate: Candidate)
    requires Ready(c, candidate.key, 4) && c.clock > 1
    requires Complete(Move(c, UsageStep(Failure(candidate.key), c.clock)).live)
    ensures Announces61(Move(c, UsageStep(Failure(candidate.key), c.clock)), candidate)
  {
    ReadyFailure(c, candidate.key, 4);
    var after := Move(c, UsageStep(Failure(candidate.key), c.clock));
    PickOfThrottled(after.live, candidate, c.clock - 1, c.clock + Rung(5));
  }

  /** The four rounds, for any machine that follows. */
  lemma ClimbEnds(good: World -> bool, next: (World, Step) -> World, w: World, start: Time, auth: string)
    requires Follows(good, next, auth) && good(w) && Ready(CoreOf(w), auth, 0) && w.clock == start
    requires SensibleClock(start) && SensibleClock(start + 5 * MINUTE)
    ensures var end := Run(next, w, Climb(auth, Times(start)));
      good(end) && Ready(CoreOf(end), auth, 4) && end.clock == start + 75 * SECOND
  {
    var times := Times(start);
    var end := Run(next, w, Climb(auth, times));
    assert good(end) && CoreOf(end) == Run(Move, CoreOf(w), Climb(auth, times)) by {
      ClimbProjects(good, next, w, auth, times);
    }
    assert Ready(Run(Move, CoreOf(w), Climb(auth, times)), auth, 4)
      && Run(Move, CoreOf(w), Climb(auth, times)).clock == start + 75 * SECOND
    by {
      assert times[0..] == times;
      ReadyClimb(CoreOf(w), auth, start, 0);
    }
  }

  lemma LastFailure(w: World, c: Candidate)
    requires Good(w) && Ready(CoreOf(w), c.key, 4) && w.clock > 1
    ensures Announces61(CoreOf(Next(w, UsageStep(Failure(c.key), w.clock))), c)
  {
    var end := Next(w, UsageStep(Failure(c.key), w.clock));
    assert CoreOf(end) == Move(CoreOf(w), UsageStep(Failure(c.key), w.clock)) && Complete(end.live) by {
      FailureStep(w, c.key, w.clock);
      GoodBounded(end);
    }
    FifthFailure(CoreOf(w), c);
  }

  /**
   From a first start with any valid configuration whose fallback is at least a minute: after four
   failures and their throttles, a fifth failure at the end of the fourth throttle makes a pick that
   had read the clock one nanosecond earlier announce sixty-one seconds.
   */
  lemma StalePickAnnounces61(base: Snapshot, start: Time, c: Candidate)
    requires ValidConfig(base.config) && SensibleClock(start) && SensibleClock(start + 5 * MINUTE)
    requires Indexed(base.accounts, base.byIdentity) && ValidAccounts(base.byIdentity)
    requires forall a | a in base.byAuthId :: base.byAuthId[a] in base.byIdentity
    requires c.key in base.byAuthId && !base.byIdentity[base.byAuthId[c.key]].disabled
    requires base.config.fallbackCooldown >= BACKOFF_CAP
    ensures forall id | id in base.byIdentity :: Sorted(StagedQuota(NO_FILE, id, start, base.config.retention).events)
    ensures var last := Run(Next, StartWorld(base, NO_FILE, start), Climb(c.key, Times(start)));
      && last.clock == start + 75 * SECOND
      && Announces61(CoreOf(Next(last, UsageStep(Failure(c.key), last.clock))), c)
  {
    FirstStartGood(base, start);
    FirstReady(base, start, c.key);
    ClimbAnnounces(StartWorld(base, NO_FILE, start), start, c);
  }

  lemma ClimbAnnounces(w: World, start: Time, c: Candidate)
    requires Good(w) && Ready(CoreOf(w), c.key, 0) && w.clock == start
    requires SensibleClock(start) && SensibleClock(start + 5 * MINUTE)
    ensures var last := Run(Next, w, Climb(c.key, Times(start)));
      && last.clock == start + 75 * SECOND
      && Announces61(CoreOf(Next(last, UsageStep(Failure(c.key), last.clock))), c)
  {
    var last := Run(Next, w, Climb(c.key, Times(start)));
    assert Good(last) && Ready(CoreOf(last), c.key, 4) && last.clock == start + 75 * SECOND by {
      ProtocolFollows(c.key);
      ClimbEnds(Good, Next, w, start, c.key);
    }
    LastFailure(last, c);
  }

  lemma FirstReady(base: Snapshot, start: Time, auth: string)
    requires forall id | id in base.byIdentity :: Sorted(StagedQuota(NO_FILE, id, start, base.config.retention).events)
    requires auth in base.byAuthId && base.byAuthId[auth] in base.byIdentity && ValidConfig(base.config) && start > 0
    requires ValidAccount(base.byIdentity[base.byAuthId[auth]]) && !base.byIdentity[base.byAuthId[auth]].disabled
    requires base.config.fallbackCooldown >= BACKOFF_CAP
    ensures Ready(CoreOf(StartWorld(base, NO_FILE, start)), auth, 0)
  {
    FirstPoised(base, start, auth);
  }

  /** A first start remembers nothing of an account. */
  lemma FirstHealth(base: Snapshot, start: Time, id: string)
    requires forall id | id in base.byIdentity :: Sorted(StagedQuota(NO_FILE, id, start, base.config.retention).events)
    requires id in base.byIdentity
    ensures var s := Stage(base, NO_FILE, start);
      && s.config == base.config && s.byAuthId == base.byAuthId
      && id in s.byIdentity && s.byIdentity[id] == base.byIdentity[id]
      && id in s.health && s.health[id] == RefreshedHealth(
           NO_IMPAIRMENT, StagedQuota(NO_FILE, id, start, base.config.retention), base.byIdentity[id], base.config,
           start)
  {
  }

  lemma FirstPoised(base: Snapshot, start: Time, auth: string)
    requires forall id | id in base.byIdentity :: Sorted(StagedQuota(NO_FILE, id, start, base.config.retention).events)
    requires auth in base.byAuthId && base.byAuthId[auth] in base.byIdentity && ValidConfig(base.config)
    requires ValidAccount(base.byIdentity[base.byAuthId[auth]]) && !base.byIdentity[base.byAuthId[auth]].disabled
    requires base.config.fallbackCooldown >= BACKOFF_CAP
    ensures Poised(Stage(base, NO_FILE, start), auth, 0, ZERO_TIME)
  {
    var id := base.byAuthId[auth];
    FirstHealth(base, start, id);
    StageParts(base, NO_FILE, start, id);
    var q := StagedQuota(NO_FILE, id, start, base.config.retention);
    NoCapacityUsed(NO_IMPAIRMENT, q, base.byIdentity[id], base.config, start);
  }
}
