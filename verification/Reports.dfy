/**
 What a report of the quota endpoint does to an account's capacity (internal/providers/zai/windows.go,
 health.go, runtime.go): while it is in force it decides, whatever usage arrives, and once it is too
 old the estimate does.
 */
module Reports {
  import opened Common
  import opened Machine
  import opened Store
  import opened Windows
  import opened Quota
  import opened Health
  import opened State
  import opened Runtime
  import opened Protocol
  import opened Consumption
  import opened Capacity
  import opened Scheduler

  // ---------------------------------------------------------------- one refresh

  /** The window has used the threshold's share of its bucket. */
  predicate Reached(w: QuotaWindow, percent: int) {
    w.consumed >= w.bucket * percent / 100
  }

  /** The observation is neither too old nor from the future. */
  predicate InForce(report: QuotaSnapshot, c: Config, now: Time) {
    report.observedAt <= now <= report.observedAt + c.maxAge
  }

  /** A report without a five-hour window leaves that one to the estimate. */
  ghost predicate FiveHourReached(report: QuotaSnapshot, q: QuotaState, a: Account, c: Config, now: Time) {
    if report.fiveHourError == "" then Reached(report.fiveHour, c.percent)
    else Full(q.events, now, FIVE_HOUR_WINDOW, a.fiveHourCredits, c.percent)
  }

  ghost function FiveHourReset(report: QuotaSnapshot, q: QuotaState, a: Account, c: Config, now: Time): Time
    requires Sorted(q.events)
  {
    if report.fiveHourError == "" then report.fiveHour.resetsAt
    else ResetOf(q.events, now, FIVE_HOUR_WINDOW, a.fiveHourCredits, c.percent)
  }

  /** Two windows decide: capacity is gone if either is full, until the later reset of those that are. */
  ghost predicate Decided(h: HealthState, fiveHour: bool, fiveHourReset: Time, weekly: bool, weeklyReset: Time) {
    && (h.capacityExhausted <==> fiveHour || weekly)
    && h.capacityResetAt
       == if fiveHour && weekly then Common.Max(fiveHourReset, weeklyReset) else if fiveHour then fiveHourReset
          else if weekly then weeklyReset else ZERO_TIME
  }

  ghost predicate FollowsReport(h: HealthState, report: QuotaSnapshot, q: QuotaState, a: Account, c: Config, now: Time)
    requires Sorted(q.events)
  {
    Decided(h, FiveHourReached(report, q, a, c, now), FiveHourReset(report, q, a, c, now),
            Reached(report.weekly, c.percent), report.weekly.resetsAt)
  }

  ghost predicate FollowsEstimate(h: HealthState, q: QuotaState, a: Account, c: Config, now: Time)
    requires Sorted(q.events)
  {
    Decided(h, Full(q.events, now, FIVE_HOUR_WINDOW, a.fiveHourCredits, c.percent),
            ResetOf(q.events, now, FIVE_HOUR_WINDOW, a.fiveHourCredits, c.percent),
            Full(q.events, now, WEEKLY_WINDOW, a.weeklyCredits, c.percent),
            ResetOf(q.events, now, WEEKLY_WINDOW, a.weeklyCredits, c.percent))
  }

  /** The report while it is in force, the estimate otherwise. */
  ghost predicate Governed(h: HealthState, q: QuotaState, a: Account, c: Config, now: Time)
    requires Sorted(q.events)
  {
    if q.authoritative.Some? && InForce(q.authoritative.value, c, now)
    then FollowsReport(h, q.authoritative.value, q, a, c, now) else FollowsEstimate(h, q, a, c, now)
  }

  lemma ReachedIsThreshold(w: QuotaWindow, percent: int, observedAt: Time)
    requires ValidWindow(w, observedAt) && 1 <= percent <= 100
    ensures AtOrAboveThreshold(w.consumed, w.bucket, percent) <==> Reached(w, percent)
  {
    ThresholdExact(w.bucket, percent);
  }

  /** What the refresh makes of any two windows whose resets, where they matter, are not before year 1. */
  lemma CapacityDecided(h: HealthState, fiveHour: QuotaWindow, weekly: QuotaWindow, percent: int)
    requires AtOrAboveThreshold(fiveHour.consumed, fiveHour.bucket, percent) ==> fiveHour.resetsAt >= ZERO_TIME
    requires AtOrAboveThreshold(weekly.consumed, weekly.bucket, percent) ==> weekly.resetsAt >= ZERO_TIME
    ensures Decided(CapacityHealth(h, fiveHour, weekly, percent),
                    AtOrAboveThreshold(fiveHour.consumed, fiveHour.bucket, percent), fiveHour.resetsAt,
                    AtOrAboveThreshold(weekly.consumed, weekly.bucket, percent), weekly.resetsAt)
  {
  }

  ghost predicate Sensible(q: QuotaState, a: Account, c: Config) {
    && Sorted(q.events) && Positive(q.events) && ValidAccount(a) && ValidConfig(c)
    && (q.authoritative.Some? ==> Observed(q.authoritative.value))
  }

  predicate Observed(report: QuotaSnapshot) {
    && report.observedAt >= ZERO_TIME && ValidWindow(report.weekly, report.observedAt)
    && (report.fiveHourError == "" ==> ValidWindow(report.fiveHour, report.observedAt))
  }

  /**
   With an observation in force, capacity is exhausted exactly when the observed weekly window, or the
   observed five-hour window (the estimated one in place of a diagnostic), is at its threshold, until
   the later reset of those that are; without one, the estimates decide in the same way.
   */
  lemma RefreshGoverned(h: HealthState, q: QuotaState, a: Account, c: Config, now: Time)
    requires Sensible(q, a, c) && now > 0
    ensures Governed(RefreshedHealth(h, q, a, c, now), q, a, c, now)
  {
    EstimateAnnounced(q.events, now, FIVE_HOUR_WINDOW, a.fiveHourCredits, c.percent);
    EstimateAnnounced(q.events, now, WEEKLY_WINDOW, a.weeklyCredits, c.percent);
    if Fresh(q, c, now) {
      var report := q.authoritative.value;
      ReachedIsThreshold(report.weekly, c.percent, report.observedAt);
      if report.fiveHourError == "" {
        ReachedIsThreshold(report.fiveHour, c.percent, report.observedAt);
      }
    }
    CapacityDecided(h, FiveHourView(q, a, c, now), WeeklyView(q, a, c, now), c.percent);
  }

  // ---------------------------------------------------------------- from the wire

  /** The limit's current value is at the threshold of its usage. */
  predicate LimitReached(limit: WireLimit, percent: int)
    requires limit.usage.Value? && limit.currentValue.Value?
  {
    limit.currentValue.v * CREDIT_SCALE >= limit.usage.v * CREDIT_SCALE * percent / 100
  }

  /** What the limits of a report say of a window; None if none of them is trusted. */
  function LimitsSay(limits: seq<WireLimit>, kind: WindowKind, observedAt: Time, percent: int): Option<bool> {
    RunEndsReadable(limits, kind, observedAt);
    if ReadableRun(limits, kind, observedAt) % 2 == 1 then Some(LimitReached(LastGiven(limits, kind).value, percent))
    else None
  }

  lemma ParsedObserved(limits: seq<WireLimit>, plan: Plan, observedAt: Time)
    requires Parse(limits, plan, observedAt).Ok? && observedAt >= ZERO_TIME
    ensures Observed(Parse(limits, plan, observedAt).value)
  {
    SlotsGood(limits, observedAt);
  }

  /** A parsed report has reached its thresholds where its trusted limits have. */
  lemma ParsedReaches(limits: seq<WireLimit>, plan: Plan, observedAt: Time, percent: int)
    requires Parse(limits, plan, observedAt).Ok?
    ensures var report := Parse(limits, plan, observedAt).value;
      var fiveHour := LimitsSay(limits, FiveHour, observedAt, percent);
      && report.plan == plan && report.observedAt == observedAt
      && LimitsSay(limits, Weekly, observedAt, percent) == Some(Reached(report.weekly, percent))
      && fiveHour == if report.fiveHourError == "" then Some(Reached(report.fiveHour, percent)) else None
  {
    ParsedTells(limits, plan, observedAt);
  }

  /** A poll's own refresh follows the report it brings. */
  lemma PollFollowsReport(s: Snapshot, id: string, report: QuotaSnapshot, startedAt: Time, clock: Time)
    requires ValidLive(s, clock) && id in s.byIdentity && startedAt > 0
    requires Observed(report) && report.observedAt == startedAt
    ensures var after := Poll(s, id, Some(report), startedAt);
      && id in after.quota && Sorted(after.quota[id].events) && after.quota[id].events == s.quota[id].events
      && FollowsReport(after.health[id], report, after.quota[id], after.byIdentity[id], s.config, startedAt)
  {
    RewriteKeeps(s.accounts, s.byIdentity, Polled(id, report.plan));
    var q := QuotaAfterPoll(s.quota[id], Some(report), startedAt);
    var a := Polled(id, report.plan).Index(s.byIdentity)[id];
    assert Positive(q.events) by {
      assert ValidQuota(s.quota[id], clock);
    }
    RefreshGoverned(s.health[id], q, a, s.config, startedAt);
  }

  /**
   Right after a poll that parsed the limits, the account is out of capacity exactly when the trusted
   weekly limit, or the trusted five-hour limit, has reached its threshold; without a trusted five-hour
   limit its estimate stands in.
   */
  lemma PolledLimitsDecide(s: Snapshot, id: string, limits: seq<WireLimit>, plan: Plan, startedAt: Time, clock: Time)
    requires ValidLive(s, clock) && id in s.byIdentity && startedAt > 0 && Parse(limits, plan, startedAt).Ok?
    ensures var after := Poll(s, id, Some(Parse(limits, plan, startedAt).value), startedAt);
      var a := after.byIdentity[id];
      var fiveHour := LimitsSay(limits, FiveHour, startedAt, s.config.percent);
      var weekly := LimitsSay(limits, Weekly, startedAt, s.config.percent);
      && weekly.Some?
      && (after.health[id].capacityExhausted <==>
            || weekly.value
            || (if fiveHour.Some? then fiveHour.value
                else Full(s.quota[id].events, startedAt, FIVE_HOUR_WINDOW, a.fiveHourCredits, s.config.percent)))
  {
    ParsedReaches(limits, plan, startedAt, s.config.percent);
    ParsedObserved(limits, plan, startedAt);
    PollFollowsReport(s, id, Parse(limits, plan, startedAt).value, startedAt, clock);
  }

  // ---------------------------------------------------------------- over runs

  /** The account stays configured in this process. */
  ghost predicate Keeps(step: Step, id: string) {
    match step
    case CommitStep(staged) => id in staged.byIdentity
    case Restart(_, _) => false
    case _ => true
  }

  /** The step is a poll of the account that brings a report. */
  predicate Reporting(step: Step, id: string) {
    step.PollStep? && step.id == id && step.report.Some?
  }

  /** The step brings the account no other report, and leaves it configured. */
  ghost predicate NoNews(step: Step, id: string) {
    Keeps(step, id) && !Reporting(step, id)
  }

  /** No warning is taken back, the ledger begins when it did, and the report stays unless there is another. */
  predicate Inherits(before: QuotaState, after: QuotaState, reporting: bool) {
    && (reporting || after.authoritative == before.authoritative)
    && (before.completeSince != ZERO_TIME ==> after.completeSince == before.completeSince)
    && (before.persistenceWarning ==> after.persistenceWarning) && (before.deliveryWarning ==> after.deliveryWarning)
    && (before.unknownModelWarning ==> after.unknownModelWarning) && (before.dedupCollision ==> after.dedupCollision)
  }

  ghost predicate Bequeaths(s: Snapshot, t: Snapshot, id: string, reporting: bool) {
    id in s.quota && id in t.quota && Inherits(s.quota[id], t.quota[id], reporting)
  }

  lemma UsageBequeaths(w: World, record: UsageRecord, now: Time, id: string)
    requires Good(w) && Enabled(w, UsageStep(record, now)) && id in w.live.quota
    ensures Bequeaths(w.live, AfterUsage(w, record, now).live, id, false)
  {
  }

  lemma PollBequeaths(s: Snapshot, target: string, answer: Option<QuotaSnapshot>, startedAt: Time, id: string)
    requires target in s.quota && target in s.health && target in s.byIdentity && Sorted(s.quota[target].events)
    requires id in s.quota
    ensures Bequeaths(s, Poll(s, target, answer, startedAt), id, target == id && answer.Some?)
  {
  }

  lemma WriteBequeaths(w: World, c: Capture, outcome: WriteOutcome, id: string)
    requires id in w.live.quota
    ensures Bequeaths(w.live, AfterWrite(w, c, outcome).live, id, false)
  {
    var s, t := w.live, AfterWrite(w, c, outcome).live;
    assert id in t.quota && (t.quota[id] == s.quota[id] || t.quota[id] == Warn(s.quota[id])) by {
      FailedWriteWarns(w, c, outcome);
    }
    WarnInherits(s.quota[id]);
  }

  lemma WarnInherits(q: QuotaState)
    ensures Inherits(q, q, false) && Inherits(q, Warn(q), false)
  {
  }

  lemma CommitBequeaths(live: Snapshot, staged: Snapshot, id: string)
    requires id in live.quota && Covered(staged) && id in staged.byIdentity
    ensures Bequeaths(live, Commit(live, staged), id, false)
  {
  }

  lemma UnblockBequeaths(s: Snapshot, target: string, now: Time, id: string)
    requires id in s.quota && Complete(s) && target in s.byIdentity
    ensures Bequeaths(s, Unblock(s, target, now), id, false)
  {
  }

  lemma ReassessBequeaths(s: Snapshot, target: string, now: Time, id: string)
    requires id in s.quota && Complete(s) && target in s.byIdentity
    ensures Bequeaths(s, Reassess(s, target, now), id, false)
  {
  }

  lemma StepBequeaths(w: World, step: Step, id: string)
    requires Good(w) && Enabled(w, step) && Keeps(step, id) && id in w.live.quota
    ensures Bequeaths(w.live, Apply(w, step).live, id, Reporting(step, id))
  {
    if step.UsageStep? {
      UsageBequeaths(w, step.record, step.now, id);
    } else if step.PollStep? {
      if !Cancelled(w, step.id, step.generation) {
        PollBequeaths(w.live, step.id, step.report, step.startedAt, id);
      }
    } else if step.UsageWrite? {
      WriteBequeaths(w, w.handler.value, step.outcome, id);
    } else if step.PollWrite? {
      WriteBequeaths(w, step.capture, step.outcome, id);
    } else if step.CommitStep? {
      CommitBequeaths(w.live, step.staged, id);
    } else if step.UnblockStep? {
      UnblockBequeaths(w.live, step.id, w.clock, id);
    } else if step.ReassessStep? {
      ReassessBequeaths(w.live, step.id, step.now, id);
    } else {
      assert Apply(w, step).live == w.live;
    }
  }

  lemma NextBequeaths(w: World, step: Step, id: string)
    requires Good(w) && Keeps(step, id) && id in w.live.quota
    ensures Good(Next(w, step)) && Bequeaths(w.live, Next(w, step).live, id, Reporting(step, id))
  {
    NextGood(w, step);
    if Enabled(w, step) {
      StepBequeaths(w, step, id);
    }
  }

  /** The account's last report. */
  ghost predicate LastReport(s: Snapshot, id: string, report: QuotaSnapshot) {
    id in s.quota && s.quota[id].authoritative == Some(report)
  }

  lemma RunKeepsReport(w: World, steps: seq<Step>, id: string, report: QuotaSnapshot)
    requires Good(w) && LastReport(w.live, id, report) && forall i | 0 <= i < |steps| :: NoNews(steps[i], id)
    ensures Good(Run(Next, w, steps)) && LastReport(Run(Next, w, steps).live, id, report)
  {
    var inv := (x: World) => Good(x) && LastReport(x.live, id, report);
    var quiet := (s: Step) => NoNews(s, id);
    forall x, s | inv(x) && quiet(s) ensures inv(Next(x, s)) {
      NextBequeaths(x, s, id);
    }
    RunKeeps(Next, inv, quiet, w, steps);
  }

  /** The time for which a step refreshes the account's capacity, if it does. */
  ghost function RefreshTime(w: World, step: Step, id: string): Option<Time> {
    match step
    case UsageStep(record, now) =>
      if record.authId in w.live.byAuthId && w.live.byAuthId[record.authId] == id then Some(now) else None
    case PollStep(_, target, generation, startedAt, _) =>
      if target == id && !Cancelled(w, id, generation) then Some(startedAt) else None
    case UnblockStep(target) => if target == id then Some(w.clock) else None
    case ReassessStep(target, now) => if target == id then Some(now) else None
    case Restart(_, base) => if id in base.byIdentity then Some(w.clock) else None
    case _ => None
  }

  /** The account's capacity is what a refresh for that time makes of it. */
  ghost predicate UpToDate(s: Snapshot, id: string, now: Time) {
    && id in s.quota && id in s.health && id in s.byIdentity && Sorted(s.quota[id].events)
    && s.health[id] == RefreshedHealth(s.health[id], s.quota[id], s.byIdentity[id], s.config, now)
  }

  lemma PutUpToDate(s: Snapshot, id: string, q: QuotaState, h: HealthState, now: Time)
    requires id in s.byIdentity && Sorted(q.events)
    ensures UpToDate(Put(s, id, q, h, now), id, now)
  {
  }

  lemma UsageUpToDate(w: World, record: UsageRecord, now: Time)
    requires Good(w) && Enabled(w, UsageStep(record, now)) && record.authId in w.live.byAuthId
    ensures UpToDate(AfterUsage(w, record, now).live, w.live.byAuthId[record.authId], now)
  {
    var id := w.live.byAuthId[record.authId];
    UsageKeeps(w.live, id, record, now, w.clock);
    PutUpToDate(w.live, id, QuotaAfterUsage(w.live.quota[id], record, now, w.live.config.retention),
                HealthAfterUsage(w.live.health[id], record, now, w.live.config), now);
  }

  lemma PollUpToDate(w: World, step: Step)
    requires Good(w) && step.PollStep? && !Cancelled(w, step.id, step.generation)
    ensures var next := AfterPoll(w, step.goroutine, step.id, step.generation, step.startedAt, step.report);
      UpToDate(next.live, step.id, step.startedAt)
  {
    var s, id, report := w.live, step.id, step.report;
    var synced := if report.Some? then RewritePlans(s, Polled(id, report.value.plan)) else s;
    PutUpToDate(synced, id, QuotaAfterPoll(s.quota[id], report, step.startedAt), s.health[id], step.startedAt);
  }

  lemma UnblockUpToDate(s: Snapshot, id: string, now: Time)
    requires Complete(s) && id in s.byIdentity
    ensures UpToDate(Unblock(s, id, now), id, now)
  {
  }

  lemma StageUpToDate(base: Snapshot, file: Capture, now: Time, id: string)
    requires forall id | id in base.byIdentity :: Sorted(StagedQuota(file, id, now, base.config.retention).events)
    requires id in base.byIdentity
    ensures UpToDate(Stage(base, file, now), id, now)
  {
    StageRefreshes(base, file, now, id);
    RefreshTwice(StagedHealth(file, id, now), StagedQuota(file, id, now, base.config.retention),
                 Stage(base, file, now).byIdentity[id], base.config, now);
  }

  lemma RefreshTwice(h: HealthState, q: QuotaState, a: Account, c: Config, now: Time)
    requires Sorted(q.events)
    ensures var once := RefreshedHealth(h, q, a, c, now);
      RefreshedHealth(once, q, a, c, now) == once
  {
  }

  lemma StageRefreshes(base: Snapshot, file: Capture, now: Time, id: string)
    requires forall id | id in base.byIdentity :: Sorted(StagedQuota(file, id, now, base.config.retention).events)
    requires id in base.byIdentity
    ensures var s := Stage(base, file, now);
      && id in s.byIdentity && id in s.quota && id in s.health && s.config == base.config
      && s.quota[id] == StagedQuota(file, id, now, base.config.retention)
      && s.health[id]
         == RefreshedHealth(StagedHealth(file, id, now), s.quota[id], s.byIdentity[id], base.config, now)
  {
  }

  lemma RestartUpToDate(w: World, persisted: nat, base: Snapshot, id: string)
    requires Good(w) && Enabled(w, Restart(persisted, base)) && id in base.byIdentity
    ensures UpToDate(AfterRestart(w, persisted, base).live, id, w.clock)
  {
    var file := w.disk.states[persisted].(ticket := 0);
    StageKeeps(base, file, w.clock);
    StageUpToDate(base, file, w.clock, id);
  }

  /** The report a saved state holds for an account. */
  function SavedReport(c: Capture, id: string): Option<QuotaSnapshot> {
    if id in c.quota then c.quota[id].authoritative else None
  }

  /** A start takes over the report that state.json holds for an account, in force or not, and its warnings. */
  lemma StartReports(w: World, persisted: nat, base: Snapshot, id: string)
    requires Good(w) && Enabled(w, Restart(persisted, base)) && id in base.byIdentity
    ensures var s := Next(w, Restart(persisted, base)).live;
      && id in s.quota && s.quota[id].authoritative == SavedReport(w.disk.states[persisted], id)
      && s.quota[id].completeSince != ZERO_TIME
      && (id in w.disk.states[persisted].quota ==> Inherits(w.disk.states[persisted].quota[id], s.quota[id], false))
      && CapacityGoverned(s, id, w.clock)
  {
    var file := w.disk.states[persisted].(ticket := 0);
    StageKeeps(base, file, w.clock);
    StageParts(base, file, w.clock, id);
    RefreshStepGoverned(w, Restart(persisted, base), id, w.clock);
  }

  lemma StepUpToDate(w: World, step: Step, id: string, now: Time)
    requires Good(w) && Enabled(w, step) && RefreshTime(w, step, id) == Some(now)
    ensures UpToDate(Apply(w, step).live, id, now)
  {
    if step.UsageStep? {
      UsageUpToDate(w, step.record, now);
    } else if step.PollStep? {
      PollUpToDate(w, step);
    } else if step.UnblockStep? {
      UnblockUpToDate(w.live, id, now);
    } else if step.Restart? {
      RestartUpToDate(w, step.persisted, step.base, id);
    } else {
      PutUpToDate(w.live, id, w.live.quota[id], w.live.health[id], now);
    }
  }

  lemma GoodSensible(w: World, id: string)
    requires Good(w) && id in w.live.byIdentity
    ensures id in w.live.quota && id in w.live.health
      && Sensible(w.live.quota[id], w.live.byIdentity[id], w.live.config)
  {
    assert ValidQuota(w.live.quota[id], w.clock);
  }

  /** The account's capacity in the live snapshot is what its last report, or its estimate, says for that time. */
  ghost predicate CapacityGoverned(s: Snapshot, id: string, now: Time) {
    && id in s.quota && id in s.health && id in s.byIdentity && Sorted(s.quota[id].events)
    && Governed(s.health[id], s.quota[id], s.byIdentity[id], s.config, now)
  }

  lemma UpToDateGoverned(w: World, id: string, now: Time)
    requires Good(w) && UpToDate(w.live, id, now) && now > 0
    ensures CapacityGoverned(w.live, id, now)
  {
    GoodSensible(w, id);
    RefreshGoverned(w.live.health[id], w.live.quota[id], w.live.byIdentity[id], w.live.config, now);
  }

  /** Every refresh of every run leaves the account's capacity to its last report, or else to the estimate. */
  lemma RefreshStepGoverned(w: World, step: Step, id: string, now: Time)
    requires Good(w) && Enabled(w, step) && RefreshTime(w, step, id) == Some(now)
    ensures CapacityGoverned(Next(w, step).live, id, now)
  {
    var next := Next(w, step);
    assert Good(next) && UpToDate(next.live, id, now) by {
      NextGood(w, step);
      StepUpToDate(w, step, id, now);
    }
    assert now > 0 by {
      RefreshTimePositive(w, step, id, now);
    }
    UpToDateGoverned(next, id, now);
  }

  lemma RefreshTimePositive(w: World, step: Step, id: string, now: Time)
    requires SensibleClock(w.clock) && Enabled(w, step) && RefreshTime(w, step, id) == Some(now)
    ensures now > 0
  {
  }

  /**
   From a report until the next one or a restart, whatever usage, polls without a report, writes,
   unblocks and commits happen: every refresh of the account follows that report until it is older
   than the maximal age, and the estimate from then on.
   */
  lemma ReportGoverns(w: World, id: string, report: QuotaSnapshot, steps: seq<Step>, step: Step, now: Time)
    requires Good(w) && LastReport(w.live, id, report) && forall i | 0 <= i < |steps| :: NoNews(steps[i], id)
    requires var end := Run(Next, w, steps);
      NoNews(step, id) && Enabled(end, step) && RefreshTime(end, step, id) == Some(now)
    ensures var s := Next(Run(Next, w, steps), step).live;
      && LastReport(s, id, report) && CapacityGoverned(s, id, now)
      && (if InForce(report, s.config, now)
          then FollowsReport(s.health[id], report, s.quota[id], s.byIdentity[id], s.config, now)
          else FollowsEstimate(s.health[id], s.quota[id], s.byIdentity[id], s.config, now))
  {
    RunKeepsReport(w, steps, id, report);
    var end := Run(Next, w, steps);
    NextBequeaths(end, step, id);
    RefreshStepGoverned(end, step, id, now);
  }

  /** A poll that is not cancelled makes its report the account's last one, in force from its own refresh on. */
  lemma PollReports(w: World, poll: Step)
    requires Good(w) && poll.PollStep? && poll.report.Some? && Enabled(w, poll)
    requires !Cancelled(w, poll.id, poll.generation)
    ensures var s := Next(w, poll).live;
      && Good(Next(w, poll)) && LastReport(s, poll.id, poll.report.value)
      && InForce(poll.report.value, s.config, poll.startedAt) && CapacityGoverned(s, poll.id, poll.startedAt)
  {
    StepGood(w, poll);
    RefreshStepGoverned(w, poll, poll.id, poll.startedAt);
    assert Next(w, poll).live == Poll(w.live, poll.id, poll.report, poll.startedAt);
  }

  /** A poll dates its attempt, counts failures in a row, and moves no deadline. */
  lemma PollCounts(s: Snapshot, id: string, answer: Option<QuotaSnapshot>, startedAt: Time)
    requires Complete(s) && id in s.byIdentity
    ensures var q, after := s.quota[id], Poll(s, id, answer, startedAt).quota[id];
      && after.lastPollAttempt == startedAt
      && after.consecutiveFailures == (if answer.Some? then 0 else q.consecutiveFailures + 1)
      && after.authoritative == (if answer.Some? then answer else q.authoritative)
      && after.events == q.events && after.dedupHashes == q.dedupHashes && Inherits(q, after, answer.Some?)
    ensures var h, after := s.health[id], Poll(s, id, answer, startedAt).health[id];
      after == h.(capacityExhausted := after.capacityExhausted, capacityResetAt := after.capacityResetAt)
  {
  }

  /** It concerns the one account. */
  lemma PollSparesOthers(s: Snapshot, id: string, answer: Option<QuotaSnapshot>, startedAt: Time, other: string)
    requires Complete(s) && Indexed(s.accounts, s.byIdentity) && id in s.byIdentity
    requires other in s.byIdentity && other != id
    ensures var t := Poll(s, id, answer, startedAt);
      && other in t.byIdentity && other in t.quota && other in t.health
      && t.quota[other] == s.quota[other] && t.health[other] == s.health[other]
      && t.byIdentity[other] == s.byIdentity[other]
  {
  }

  // ---------------------------------------------------------------- picks

  lemma CapacityIsRefreshed(s: Snapshot, id: string, read: Time)
    requires Complete(s) && id in s.byIdentity
    ensures HasCapacity(s, id, read) <==>
      !RefreshedHealth(s.health[id], s.quota[id], s.byIdentity[id], s.config, read).capacityExhausted
  {
  }

  /**
   Until the next report or restart, a pick that read a time while the report was in force takes the
   account to have capacity exactly when neither of the report's windows is at its threshold, and
   does not reach it otherwise.
   */
  lemma PickFollowsReport(w: World, id: string, report: QuotaSnapshot, steps: seq<Step>,
                          cs: seq<Candidate>, read: Time, r: Response)
    requires Good(w) && LastReport(w.live, id, report) && forall i | 0 <= i < |steps| :: NoNews(steps[i], id)
    requires var end := Run(Next, w, steps);
      && Keyed(cs) && read > 0 && InForce(report, end.live.config, read)
      && Complete(end.live) && id in end.live.byIdentity && Expected(end.stopped, end.live, cs, read, r)
    ensures var s := Run(Next, w, steps).live;
      var full := FiveHourReached(report, s.quota[id], s.byIdentity[id], s.config, read)
        || Reached(report.weekly, s.config.percent);
      (HasCapacity(s, id, read) <==> !full) && (full ==> !MayReach(s, cs, r, id))
  {
    RunKeepsReport(w, steps, id, report);
    var end := Run(Next, w, steps);
    var s := end.live;
    GoodSensible(end, id);
    RefreshGoverned(s.health[id], s.quota[id], s.byIdentity[id], s.config, read);
    CapacityIsRefreshed(s, id, read);
    if !HasCapacity(s, id, read) {
      ImpairedUnreachable(end.stopped, s, cs, read, r, id);
    }
  }

  // ---------------------------------------------------------------- warnings

  /** The write of a capture that is not stale failed, on a closed store or an open one. */
  predicate WriteFails(w: World, c: Capture, outcome: WriteOutcome) {
    c.ticket > w.persisted && (w.closed || outcome != Committed)
  }

  ghost predicate CarriesWarning(s: Snapshot, id: string) {
    id in s.quota && s.quota[id].persistenceWarning && s.quota[id].deliveryWarning
  }

  /**
   A failed write warns exactly the captured accounts, if no commit has come in between, and changes
   nothing else of the snapshot; any other write changes nothing of it.
   */
  lemma FailedWriteWarns(w: World, c: Capture, outcome: WriteOutcome)
    ensures var s, t := w.live, AfterWrite(w, c, outcome).live;
      if !WriteFails(w, c, outcome) || s.generation != c.generation then t == s
      else
        && t == s.(quota := t.quota) && t.quota.Keys == s.quota.Keys
        && forall id | id in s.quota ::
             t.quota[id] == if id !in c.quota then s.quota[id]
                            else s.quota[id].(persistenceWarning := true, deliveryWarning := true)
  {
  }

  /** Once given, the warning stays in every later state of the process, whatever is written successfully. */
  lemma WarningStays(w: World, steps: seq<Step>, id: string)
    requires Good(w) && CarriesWarning(w.live, id) && forall i | 0 <= i < |steps| :: Keeps(steps[i], id)
    ensures CarriesWarning(Run(Next, w, steps).live, id)
  {
    var inv := (x: World) => Good(x) && CarriesWarning(x.live, id);
    var keeps := (s: Step) => Keeps(s, id);
    forall x, s | inv(x) && keeps(s) ensures inv(Next(x, s)) {
      NextBequeaths(x, s, id);
    }
    RunKeeps(Next, inv, keeps, w, steps);
  }
}
