/**
 The runtime snapshot and the operations that change it under the runtime lock
 (internal/providers/zai/runtime.go, management.go): usage records, quota polls, unblocks,
 capacity refreshes, same-store commits, and staging from state.json.
 */
module Runtime {
  import opened Common
  import opened Windows
  import opened Ledger
  import opened Quota
  import opened Health
  import opened State

  datatype Account = Account(
    identity: string,
    plan: Plan,
    disabled: bool,
    fiveHourCredits: int,
    weeklyCredits: int,
    planExplicit: bool,
    fiveHourExplicit: bool,
    weeklyExplicit: bool)

  datatype Config = Config(suspendDuration: int, fallbackCooldown: int, retention: int, maxAge: int, percent: int)

  datatype Snapshot = Snapshot(
    generation: nat,
    config: Config,
    accounts: seq<Account>,
    quota: map<string, QuotaState>,
    health: map<string, HealthState>,
    byAuthId: map<string, string>,
    byIdentity: map<string, Account>)

  /** What parsePluginConfig guarantees of the durations, which are positive int64 values. */
  predicate ValidConfig(c: Config) {
    && 0 < c.suspendDuration <= MAX_INT64 && 0 < c.fallbackCooldown <= MAX_INT64
    && WEEK < c.retention <= MAX_INT64 && 0 < c.maxAge <= MAX_INT64 && 1 <= c.percent <= 100
  }

  predicate ValidAccount(a: Account) {
    HexDigest(a.identity) && ValidCreditBucket(a.fiveHourCredits) && ValidCreditBucket(a.weeklyCredits)
  }

  // ---------------------------------------------------------------- plans

  /** The five-hour and weekly credits of a named plan. */
  function PlanBuckets(plan: Plan): Option<(int, int)> {
    match plan
    case Lite => Some((2_000, 10_000))
    case Pro => Some((12_000, 60_000))
    case Max => Some((28_000, 140_000))
    case _ => None
  }

  predicate Explicit(a: Account) {
    a.planExplicit || a.fiveHourExplicit || a.weeklyExplicit
  }

  function WithPlan(a: Account, plan: Plan): Account
    requires PlanBuckets(plan).Some?
  {
    a.(plan := plan, fiveHourCredits := PlanBuckets(plan).value.0, weeklyCredits := PlanBuckets(plan).value.1)
  }

  /** syncPlanFromUpstream for one account: only a named plan nobody chose explicitly follows the upstream. */
  function SyncPlan(a: Account, plan: Plan): Account {
    if PlanBuckets(plan).None? || a.plan == Custom || Explicit(a) || a.plan == plan then a else WithPlan(a, plan)
  }

  /** carryForwardNamedPlans for one account. */
  function CarryPlan(live: Account, staged: Account): Account {
    if live.plan == Custom || Explicit(live) || Explicit(staged) || PlanBuckets(live.plan).None? then staged
    else WithPlan(staged, live.plan)
  }

  /**
   What may rewrite the plans of accounts: a poll of one account, a commit over live accounts, a start
   from saved quota.
   */
  datatype PlanSource =
    | Polled(id: string, plan: Plan)
    | Carried(live: map<string, Account>)
    | Loaded(quota: map<string, QuotaState>)
  {
    function Rewrite(a: Account): Account {
      match this
      case Polled(id, plan) => if a.identity == id then SyncPlan(a, plan) else a
      case Carried(live) => if a.identity in live then CarryPlan(live[a.identity], a) else a
      case Loaded(quota) =>
        if a.identity in quota && quota[a.identity].authoritative.Some?
        then SyncPlan(a, quota[a.identity].authoritative.value.plan) else a
    }

    function List(accounts: seq<Account>): seq<Account> {
      seq(|accounts|, i requires 0 <= i < |accounts| => Rewrite(accounts[i]))
    }

    function Index(byIdentity: map<string, Account>): map<string, Account> {
      map id | id in byIdentity :: Rewrite(byIdentity[id])
    }
  }

  // ---------------------------------------------------------------- the quota view

  /** A future observation never counts as fresh. */
  predicate Fresh(q: QuotaState, c: Config, now: Time) {
    q.authoritative.Some? && q.authoritative.value.observedAt <= now
      && now - q.authoritative.value.observedAt <= c.maxAge
  }

  function FiveHourView(q: QuotaState, a: Account, c: Config, now: Time): QuotaWindow
    requires Sorted(q.events)
  {
    if Fresh(q, c, now) && q.authoritative.value.fiveHourError == "" then q.authoritative.value.fiveHour
    else Window(q.events, now, FIVE_HOUR_WINDOW, a.fiveHourCredits * CREDIT_SCALE, c.percent)
  }

  function WeeklyView(q: QuotaState, a: Account, c: Config, now: Time): QuotaWindow
    requires Sorted(q.events)
  {
    if Fresh(q, c, now) then q.authoritative.value.weekly
    else Window(q.events, now, WEEKLY_WINDOW, a.weeklyCredits * CREDIT_SCALE, c.percent)
  }

  /** refreshCapacityLocked: the capacity fields follow the view, the deadlines stay. */
  function RefreshedHealth(h: HealthState, q: QuotaState, a: Account, c: Config, now: Time): (r: HealthState)
    requires Sorted(q.events)
    ensures r.suspendedUntil == h.suspendedUntil && r.exhaustedUntil == h.exhaustedUntil
      && r.exhaustedReason == h.exhaustedReason
    ensures r.throttledUntil == h.throttledUntil && r.throttleStreak == h.throttleStreak
  {
    CapacityHealth(h, FiveHourView(q, a, c, now), WeeklyView(q, a, c, now), c.percent)
  }

  // ---------------------------------------------------------------- usage records

  /** A usage record with its headers, body and token counts decoded; `price` is None when it cannot be priced. */
  datatype UsageRecord = UsageRecord(
    authId: string,
    failed: bool,
    status: int,
    transient: bool,
    hint: Option<(Time, string)>,
    requestedAt: Time,
    detailEmpty: bool,
    hash: string,
    price: Option<(int, string)>)

  /** What parsing a record at `now` guarantees: bounded hints with a reason, a digest, a priced known model. */
  ghost predicate ValidRecord(r: UsageRecord, now: Time) {
    && (r.hint.Some? ==> now < r.hint.value.0 <= now + MAX_HINT_FUTURE && !Blank(r.hint.value.1))
    && HexDigest(r.hash)
    && (r.price.Some? ==> 0 <= r.price.value.0 <= MAX_INT64 && NamesModel(r.price.value.1))
  }

  function Exhaust(h: HealthState, hint: Option<(Time, string)>, now: Time, c: Config): HealthState {
    var (resetAt, reason) := if hint.Some? then hint.value else RateLimitReset(now, h, c.fallbackCooldown);
    WithExhaustion(h, resetAt, reason)
  }

  function HealthAfterUsage(h: HealthState, r: UsageRecord, now: Time, c: Config): HealthState {
    if r.failed then
      if r.status == 401 || r.status == 403 then WithSuspension(h, now + c.suspendDuration)
      else if r.status == 429 then
        if r.transient && !h.capacityExhausted && (r.hint.None? || r.hint.value.0 <= now + BACKOFF_CAP) then
          var hintedAt := if r.hint.Some? then r.hint.value.0 else ZERO_TIME;
          var (throttled, escalate) := WithThrottle(h, now, hintedAt, c.fallbackCooldown);
          if escalate then Exhaust(throttled, None, now, c) else throttled
        else Exhaust(h, r.hint, now, c)
      else h
    else if h.throttleStreak > 0 && h.throttledUntil <= now then WithoutThrottle(h)
    else h
  }

  function EventTime(r: UsageRecord, now: Time): Time {
    if r.requestedAt == ZERO_TIME then now else r.requestedAt
  }

  /** The record is dated acceptably, not seen before, and so reaches the ledger. */
  predicate Counted(q: QuotaState, r: UsageRecord, now: Time) {
    !(r.failed && r.detailEmpty) && EventTime(r, now) <= now + MAX_CLOCK_SKEW && r.hash !in q.dedupHashes
  }

  /** The event a record adds to the ledger, if any. */
  function AcceptedEvent(q: QuotaState, r: UsageRecord, now: Time): Option<CreditEvent> {
    if Counted(q, r, now) && r.price.Some? && r.price.value.0 > 0
    then Some(CreditEvent(EventTime(r, now), r.price.value.0, r.price.value.1)) else None
  }

  /** seenDedup, and the bound that compaction applies again. */
  function HashesAfterUsage(q: QuotaState, r: UsageRecord, now: Time): seq<string> {
    if Counted(q, r, now) then Newest(Newest(q.dedupHashes + [r.hash])) else q.dedupHashes
  }

  function EventsAfterUsage(q: QuotaState, r: UsageRecord, now: Time, retention: int): seq<CreditEvent> {
    if Counted(q, r, now) && r.price.Some?
    then After(Record(q.events, CreditEvent(EventTime(r, now), r.price.value.0, r.price.value.1)), now - retention)
    else q.events
  }

  function QuotaAfterUsage(q: QuotaState, r: UsageRecord, now: Time, retention: int): QuotaState {
    var undated := (r.failed && r.detailEmpty) || EventTime(r, now) > now + MAX_CLOCK_SKEW;
    var unpriced := Counted(q, r, now) && r.price.None?;
    q.(completeSince := if q.completeSince == ZERO_TIME then now else q.completeSince,
       dedupHashes := HashesAfterUsage(q, r, now),
       events := EventsAfterUsage(q, r, now, retention),
       dedupCollision := q.dedupCollision || (!undated && r.hash in q.dedupHashes),
       unknownModelWarning := q.unknownModelWarning || unpriced,
       deliveryWarning := q.deliveryWarning || undated || unpriced)
  }

  // ---------------------------------------------------------------- operations on the snapshot

  /** One account's new quota and deadlines, with its capacity refreshed. */
  function Put(s: Snapshot, id: string, q: QuotaState, h: HealthState, now: Time): Snapshot
    requires id in s.byIdentity && Sorted(q.events)
  {
    s.(quota := s.quota[id := q], health := s.health[id := RefreshedHealth(h, q, s.byIdentity[id], s.config, now)])
  }

  /** handleUsage under the lock, for a record of a managed account. */
  function Usage(s: Snapshot, id: string, r: UsageRecord, now: Time): Snapshot
    requires id in s.quota && id in s.health && id in s.byIdentity
    requires Sorted(QuotaAfterUsage(s.quota[id], r, now, s.config.retention).events)
  {
    Put(s, id, QuotaAfterUsage(s.quota[id], r, now, s.config.retention),
        HealthAfterUsage(s.health[id], r, now, s.config), now)
  }

  function QuotaAfterPoll(q: QuotaState, report: Option<QuotaSnapshot>, startedAt: Time): QuotaState {
    match report
    case None => q.(lastPollAttempt := startedAt, consecutiveFailures := q.consecutiveFailures + 1)
    case Some(snapshot) => q.(lastPollAttempt := startedAt, authoritative := report, consecutiveFailures := 0)
  }

  function RewritePlans(s: Snapshot, source: PlanSource): Snapshot {
    s.(accounts := source.List(s.accounts), byIdentity := source.Index(s.byIdentity))
  }

  /** pollOnce under the lock, its generation already checked; `startedAt` is when the fetch began. */
  function Poll(s: Snapshot, id: string, report: Option<QuotaSnapshot>, startedAt: Time): Snapshot
    requires id in s.quota && id in s.health && id in s.byIdentity && Sorted(s.quota[id].events)
  {
    var synced := if report.Some? then RewritePlans(s, Polled(id, report.value.plan)) else s;
    Put(synced, id, QuotaAfterPoll(s.quota[id], report, startedAt), s.health[id], startedAt)
  }

  function Compacted(q: QuotaState, now: Time, retention: int): QuotaState {
    q.(events := After(q.events, now - retention), dedupHashes := Newest(q.dedupHashes))
  }

  function Unblock(s: Snapshot, id: string, now: Time): Snapshot
    requires id in s.quota && id in s.health && id in s.byIdentity && Sorted(s.quota[id].events)
  {
    Put(s, id, Compacted(s.quota[id], now, s.config.retention),
        WithoutThrottle(s.health[id].(exhaustedUntil := ZERO_TIME, exhaustedReason := "")), now)
  }

  function Reassess(s: Snapshot, id: string, now: Time): Snapshot
    requires id in s.quota && id in s.health && id in s.byIdentity && Sorted(s.quota[id].events)
  {
    Put(s, id, s.quota[id], s.health[id], now)
  }

  /** A same-store commit: whatever the staged snapshot knew, live quota and health of kept accounts win. */
  function Commit(live: Snapshot, staged: Snapshot): Snapshot {
    RewritePlans(staged, Carried(live.byIdentity)).(
      generation := live.generation + 1,
      quota := Merged(live.quota, staged.quota),
      health := Merged(live.health, staged.health))
  }

  function Merged<T>(live: map<string, T>, staged: map<string, T>): (m: map<string, T>)
    ensures m.Keys == staged.Keys
  {
    map id | id in staged :: if id in live then live[id] else staged[id]
  }

  // ---------------------------------------------------------------- captures and staging

  /** What one save of state.json holds, with the ticket and the generation it was captured for. */
  datatype Capture = Capture(ticket: nat, generation: nat, quota: map<string, QuotaState>,
                             health: map<string, PersistedHealth>)

  /** persistenceSnapshotLocked: all quota, and exactly the unexpired suspensions and exhaustions. */
  function Captured(s: Snapshot, ticket: nat, now: Time): Capture {
    Capture(ticket, s.generation, s.quota,
            map id | id in s.health && WorthPersisting(Persist(s.health[id], now)) :: Persist(s.health[id], now))
  }

  function StagedQuota(file: Capture, id: string, now: Time, retention: int): QuotaState {
    var q := if id in file.quota then file.quota[id] else NO_QUOTA;
    Compacted(q.(completeSince := if q.completeSince == ZERO_TIME then now else q.completeSince), now, retention)
  }

  function StagedHealth(file: Capture, id: string, now: Time): HealthState {
    if id in file.health then Restore(file.health[id], now) else NO_IMPAIRMENT
  }

  /** The snapshot a start builds from configuration (in `base`) and state.json. */
  function Stage(base: Snapshot, file: Capture, now: Time): Snapshot
    requires forall id | id in base.byIdentity :: Sorted(StagedQuota(file, id, now, base.config.retention).events)
  {
    var synced := RewritePlans(base, Loaded(file.quota));
    synced.(
      generation := 1,
      quota := map id | id in base.byIdentity :: StagedQuota(file, id, now, base.config.retention),
      health := map id | id in base.byIdentity :: RefreshedHealth(
        StagedHealth(file, id, now), StagedQuota(file, id, now, base.config.retention),
        synced.byIdentity[id], base.config, now))
  }

  // ---------------------------------------------------------------- what every operation keeps

  /** The index agrees with the list of accounts, whose identities are distinct. */
  ghost predicate Indexed(accounts: seq<Account>, byIdentity: map<string, Account>) {
    && (forall i, j | 0 <= i < j < |accounts| :: accounts[i].identity != accounts[j].identity)
    && (forall i | 0 <= i < |accounts| ::
          accounts[i].identity in byIdentity && byIdentity[accounts[i].identity] == accounts[i])
    && (forall id | id in byIdentity :: byIdentity[id].identity == id && byIdentity[id] in accounts)
  }

  /** Quota and health for exactly the indexed accounts, and no dangling credential. */
  ghost predicate Covered(s: Snapshot) {
    && s.quota.Keys == s.byIdentity.Keys && s.health.Keys == s.byIdentity.Keys
    && (forall a | a in s.byAuthId :: s.byAuthId[a] in s.byIdentity)
  }

  /** A snapshot in which every credential leads to complete records with sorted events. */
  ghost predicate Complete(s: Snapshot) {
    Covered(s) && forall id | id in s.quota :: Sorted(s.quota[id].events)
  }

  predicate Deadline(t: Time) {
    t == ZERO_TIME || YEAR_2000 <= t < YEAR_10000
  }

  ghost predicate ValidHealth(h: HealthState, clock: Time) {
    && Deadline(h.suspendedUntil) && Deadline(h.exhaustedUntil)
    && (h.exhaustedUntil != ZERO_TIME ==> !Blank(h.exhaustedReason)) && |h.exhaustedReason| <= REASON_LIMIT
    && h.capacityResetAt < YEAR_10000
    && h.throttledUntil <= clock + BACKOFF_CAP && 0 <= h.throttleStreak <= MAX_THROTTLES
  }

  ghost predicate ValidAccounts(accounts: map<string, Account>) {
    forall id | id in accounts :: ValidAccount(accounts[id])
  }

  ghost predicate ValidQuotas(quota: map<string, QuotaState>, clock: Time) {
    forall id | id in quota :: ValidQuota(quota[id], clock)
  }

  ghost predicate ValidHealths(health: map<string, HealthState>, clock: Time) {
    forall id | id in health :: ValidHealth(health[id], clock)
  }

  ghost predicate ValidLive(s: Snapshot, clock: Time) {
    && ValidConfig(s.config) && Indexed(s.accounts, s.byIdentity) && Covered(s)
    && ValidAccounts(s.byIdentity) && ValidQuotas(s.quota, clock) && ValidHealths(s.health, clock)
  }

  /** The years in which no deadline the code can compute leaves the four-digit range. */
  predicate SensibleClock(clock: Time) {
    YEAR_2000 <= clock < YEAR_9700
  }

  ghost predicate ValidCapture(c: Capture, clock: Time) {
    && (forall id | id in c.quota :: HexDigest(id) && ValidQuota(c.quota[id], clock))
    && (forall id | id in c.health :: HexDigest(id) && ValidPersistedHealth(c.health[id]))
  }

  lemma WindowResetBounded(events: seq<CreditEvent>, now: Time, duration: int, bucket: int, percent: int, clock: Time)
    requires ValidEvents(events, clock) && now <= clock && SensibleClock(clock) && 0 <= duration <= WEEK
    ensures Window(events, now, duration, bucket, percent).resetsAt < YEAR_10000
  {
  }

  lemma RefreshedHealthValid(h: HealthState, q: QuotaState, a: Account, c: Config, now: Time, clock: Time)
    requires ValidHealth(h, clock) && ValidQuota(q, clock) && now <= clock && SensibleClock(clock)
    ensures ValidHealth(RefreshedHealth(h, q, a, c, now), clock)
  {
    WindowResetBounded(q.events, now, FIVE_HOUR_WINDOW, a.fiveHourCredits * CREDIT_SCALE, c.percent, clock);
    WindowResetBounded(q.events, now, WEEKLY_WINDOW, a.weeklyCredits * CREDIT_SCALE, c.percent, clock);
  }

  lemma PutKeeps(s: Snapshot, id: string, q: QuotaState, h: HealthState, now: Time, clock: Time)
    requires ValidLive(s, clock) && id in s.byIdentity && ValidQuota(q, clock) && ValidHealth(h, clock)
    requires now <= clock && SensibleClock(clock)
    ensures ValidLive(Put(s, id, q, h, now), clock)
  {
    RefreshedHealthValid(h, q, s.byIdentity[id], s.config, now, clock);
    QuotasPut(s.quota, id, q, clock);
    HealthsPut(s.health, id, RefreshedHealth(h, q, s.byIdentity[id], s.config, now), clock);
  }

  lemma QuotasPut(quota: map<string, QuotaState>, id: string, q: QuotaState, clock: Time)
    requires ValidQuotas(quota, clock) && ValidQuota(q, clock)
    ensures ValidQuotas(quota[id := q], clock)
  {
  }

  lemma HealthsPut(health: map<string, HealthState>, id: string, h: HealthState, clock: Time)
    requires ValidHealths(health, clock) && ValidHealth(h, clock)
    ensures ValidHealths(health[id := h], clock)
  {
  }

  /** The time an operation read before it took the lock, at which the clock may have moved on. */
  predicate Reading(now: Time, clock: Time) {
    YEAR_2000 <= now <= clock && SensibleClock(clock)
  }

  lemma ExhaustValid(h: HealthState, hint: Option<(Time, string)>, now: Time, c: Config, clock: Time)
    requires ValidHealth(h, clock) && Reading(now, clock) && ValidConfig(c)
    requires hint.Some? ==> now < hint.value.0 <= now + MAX_HINT_FUTURE && !Blank(hint.value.1)
    ensures ValidHealth(Exhaust(h, hint, now, c), clock)
  {
    var (resetAt, reason) := if hint.Some? then hint.value else RateLimitReset(now, h, c.fallbackCooldown);
    assert !Blank(reason) by {
      if hint.None? { assert !Space(reason[0]); }
    }
    BoundedNotBlank(reason, REASON_LIMIT);
  }

  lemma UsageHealthValid(h: HealthState, r: UsageRecord, now: Time, c: Config, clock: Time)
    requires ValidHealth(h, clock) && Reading(now, clock) && ValidConfig(c) && ValidRecord(r, now)
    ensures ValidHealth(HealthAfterUsage(h, r, now, c), clock)
  {
    var hintedAt := if r.hint.Some? then r.hint.value.0 else ZERO_TIME;
    var (throttled, escalate) := WithThrottle(h, now, hintedAt, c.fallbackCooldown);
    if r.transient && (r.hint.None? || r.hint.value.0 <= now + BACKOFF_CAP) {
      assert ValidHealth(throttled, clock);
      ExhaustValid(throttled, None, now, c, clock);
    }
    ExhaustValid(h, r.hint, now, c, clock);
  }

  lemma NewestKeepsValid(hashes: seq<string>, hash: string)
    requires HexDigest(hash) && ValidHashes(hashes)
    ensures ValidHashes(Newest(hashes + [hash]))
    ensures Newest(Newest(hashes + [hash])) == Newest(hashes + [hash])
  {
  }

  lemma AfterKeepsValid(events: seq<CreditEvent>, cutoff: Time, now: Time)
    requires ValidEvents(events, now)
    ensures ValidEvents(After(events, cutoff), now)
  {
  }

  lemma RecordKeepsValid(events: seq<CreditEvent>, event: CreditEvent, now: Time)
    requires ValidEvents(events, now) && (event.microcredits > 0 ==> ValidEvent(event, now))
    ensures ValidEvents(Record(events, event), now)
  {
    if event.microcredits > 0 {
      InsertKeepsSorted(events, event);
      var p := FirstAfter(events, event.at);
      forall i | 0 <= i < |Insert(events, event)| ensures ValidEvent(Insert(events, event)[i], now) {
        assert Insert(events, event)[i] == if i < p then events[i] else if i == p then event else events[i - 1];
      }
    }
  }

  lemma UsageEventsValid(q: QuotaState, r: UsageRecord, now: Time, retention: int, clock: Time)
    requires ValidEvents(q.events, clock) && Reading(now, clock) && ValidRecord(r, now)
    ensures ValidEvents(EventsAfterUsage(q, r, now, retention), clock)
  {
    if Counted(q, r, now) && r.price.Some? {
      var event := CreditEvent(EventTime(r, now), r.price.value.0, r.price.value.1);
      RecordKeepsValid(q.events, event, clock);
      AfterKeepsValid(Record(q.events, event), now - retention, clock);
    }
  }

  lemma UsageQuotaValid(q: QuotaState, r: UsageRecord, now: Time, retention: int, clock: Time)
    requires ValidQuota(q, clock) && Reading(now, clock) && ValidRecord(r, now)
    ensures ValidQuota(QuotaAfterUsage(q, r, now, retention), clock)
  {
    UsageEventsValid(q, r, now, retention, clock);
    NewestKeepsValid(q.dedupHashes, r.hash);
  }

  lemma UsageKeeps(s: Snapshot, id: string, r: UsageRecord, now: Time, clock: Time)
    requires ValidLive(s, clock) && id in s.byIdentity && Reading(now, clock) && ValidRecord(r, now)
    ensures Sorted(QuotaAfterUsage(s.quota[id], r, now, s.config.retention).events)
    ensures ValidLive(Usage(s, id, r, now), clock)
  {
    UsageQuotaValid(s.quota[id], r, now, s.config.retention, clock);
    UsageHealthValid(s.health[id], r, now, s.config, clock);
    PutKeeps(s, id, QuotaAfterUsage(s.quota[id], r, now, s.config.retention),
             HealthAfterUsage(s.health[id], r, now, s.config), now, clock);
  }

  lemma RewriteSound(source: PlanSource, a: Account)
    ensures source.Rewrite(a).identity == a.identity && (ValidAccount(a) ==> ValidAccount(source.Rewrite(a)))
    ensures source.Rewrite(a).disabled == a.disabled && (Explicit(a) ==> source.Rewrite(a) == a)
  {
  }

  /**
   Whatever rewrites plans rewrites list and index together, keeps every account valid, and
   overrides no plan or bucket that was chosen explicitly.
   */
  lemma RewriteKeeps(accounts: seq<Account>, byIdentity: map<string, Account>, source: PlanSource)
    requires Indexed(accounts, byIdentity) && ValidAccounts(byIdentity)
    ensures Indexed(source.List(accounts), source.Index(byIdentity)) && ValidAccounts(source.Index(byIdentity))
    ensures forall id | id in byIdentity && Explicit(byIdentity[id]) :: source.Index(byIdentity)[id] == byIdentity[id]
  {
    var list, index := source.List(accounts), source.Index(byIdentity);
    forall i | 0 <= i < |accounts| ensures list[i].identity == accounts[i].identity {
      RewriteSound(source, accounts[i]);
    }
    forall id | id in index
      ensures index[id].identity == id && index[id] in list && ValidAccount(index[id])
      ensures Explicit(byIdentity[id]) ==> index[id] == byIdentity[id]
    {
      assert byIdentity[id] in accounts;
      var i :| 0 <= i < |accounts| && accounts[i] == byIdentity[id];
      assert list[i] == index[id];
      RewriteSound(source, byIdentity[id]);
    }
  }

  /** updateAccountConfig replaces one account in list and index; its identity is its own. */
  lemma AccountUpdateKeeps(accounts: seq<Account>, byIdentity: map<string, Account>, index: nat, candidate: Account)
    requires Indexed(accounts, byIdentity) && ValidAccounts(byIdentity) && ValidAccount(candidate)
    requires index < |accounts| && candidate.identity == accounts[index].identity
    ensures Indexed(accounts[index := candidate], byIdentity[candidate.identity := candidate])
    ensures ValidAccounts(byIdentity[candidate.identity := candidate])
  {
    var list, updated := accounts[index := candidate], byIdentity[candidate.identity := candidate];
    forall id | id in updated ensures updated[id].identity == id && updated[id] in list {
      if id != candidate.identity {
        var i :| 0 <= i < |accounts| && accounts[i] == byIdentity[id];
        assert list[i] == updated[id];
      } else {
        assert list[index] == updated[id];
      }
    }
  }

  lemma PollKeeps(s: Snapshot, id: string, report: Option<QuotaSnapshot>, startedAt: Time, clock: Time)
    requires ValidLive(s, clock) && id in s.byIdentity && Reading(startedAt, clock)
    requires report.Some? ==> report.value.observedAt == startedAt && ValidSnapshot(report.value)
    ensures ValidLive(Poll(s, id, report, startedAt), clock)
  {
    if report.Some? {
      RewriteKeeps(s.accounts, s.byIdentity, Polled(id, report.value.plan));
    }
    var synced := if report.Some? then RewritePlans(s, Polled(id, report.value.plan)) else s;
    PutKeeps(synced, id, QuotaAfterPoll(s.quota[id], report, startedAt), s.health[id], startedAt, clock);
  }

  lemma CompactedValid(q: QuotaState, now: Time, retention: int)
    requires ValidQuota(q, now)
    ensures ValidQuota(Compacted(q, now, retention), now)
  {
    AfterKeepsValid(q.events, now - retention, now);
  }

  lemma UnblockKeeps(s: Snapshot, id: string, now: Time)
    requires ValidLive(s, now) && id in s.byIdentity && SensibleClock(now)
    ensures ValidLive(Unblock(s, id, now), now)
  {
    CompactedValid(s.quota[id], now, s.config.retention);
    PutKeeps(s, id, Compacted(s.quota[id], now, s.config.retention),
             WithoutThrottle(s.health[id].(exhaustedUntil := ZERO_TIME, exhaustedReason := "")), now, now);
  }

  /** A commit takes stale staged data only for accounts that are new, and moves to a later generation. */
  lemma CommitKeeps(live: Snapshot, staged: Snapshot, clock: Time)
    requires ValidLive(live, clock) && ValidLive(staged, clock)
    ensures ValidLive(Commit(live, staged), clock)
    ensures Commit(live, staged).generation > live.generation
  {
    RewriteKeeps(staged.accounts, staged.byIdentity, Carried(live.byIdentity));
    MergeKeeps(live, staged, clock);
  }

  lemma MergeKeeps(live: Snapshot, staged: Snapshot, clock: Time)
    requires ValidQuotas(live.quota, clock) && ValidQuotas(staged.quota, clock)
    requires ValidHealths(live.health, clock) && ValidHealths(staged.health, clock)
    ensures ValidQuotas(Merged(live.quota, staged.quota), clock)
      && ValidHealths(Merged(live.health, staged.health), clock)
  {
  }

  lemma CapturedValid(s: Snapshot, ticket: nat, now: Time)
    requires ValidLive(s, now) && SensibleClock(now)
    ensures ValidCapture(Captured(s, ticket, now), now)
  {
    var c := Captured(s, ticket, now);
    forall id | id in c.health ensures HexDigest(id) && ValidPersistedHealth(c.health[id]) {
      if s.health[id].exhaustedUntil > now {
        BoundedNotBlank(s.health[id].exhaustedReason, REASON_LIMIT);
      }
    }
  }

  lemma StagedPartsValid(base: Snapshot, file: Capture, id: string, now: Time)
    requires SensibleClock(now) && ValidCapture(file, now)
    ensures ValidQuota(StagedQuota(file, id, now, base.config.retention), now)
    ensures ValidHealth(StagedHealth(file, id, now), now)
  {
    var q := if id in file.quota then file.quota[id] else NO_QUOTA;
    CompactedValid(q.(completeSince := if q.completeSince == ZERO_TIME then now else q.completeSince), now,
                   base.config.retention);
    if id in file.health && file.health[id].exhaustedUntil > now {
      BoundedNotBlank(file.health[id].exhaustedReason, REASON_LIMIT);
    }
  }

  /** A start holds the staged quota state and the staged deadlines of every account. */
  lemma StageParts(base: Snapshot, file: Capture, now: Time, id: string)
    requires forall id | id in base.byIdentity :: Sorted(StagedQuota(file, id, now, base.config.retention).events)
    requires id in base.byIdentity
    ensures var s := Stage(base, file, now);
      && id in s.quota && s.quota[id] == StagedQuota(file, id, now, base.config.retention)
      && id in s.health && s.health[id].suspendedUntil == StagedHealth(file, id, now).suspendedUntil
      && s.health[id].exhaustedUntil == StagedHealth(file, id, now).exhaustedUntil
  {
  }

  /** A start from a valid file never refuses it, and builds a snapshot that satisfies all of the above. */
  lemma StageKeeps(base: Snapshot, file: Capture, now: Time)
    requires ValidConfig(base.config) && SensibleClock(now) && ValidCapture(file, now)
    requires Indexed(base.accounts, base.byIdentity) && ValidAccounts(base.byIdentity)
    requires forall a | a in base.byAuthId :: base.byAuthId[a] in base.byIdentity
    ensures forall id | id in base.byIdentity :: Sorted(StagedQuota(file, id, now, base.config.retention).events)
    ensures ValidLive(Stage(base, file, now), now)
  {
    forall id | id in base.byIdentity
      ensures ValidQuota(StagedQuota(file, id, now, base.config.retention), now)
        && ValidHealth(StagedHealth(file, id, now), now)
    {
      StagedPartsValid(base, file, id, now);
    }
    var t := Stage(base, file, now);
    RewriteKeeps(base.accounts, base.byIdentity, Loaded(file.quota));
    forall id | id in t.health ensures ValidHealth(t.health[id], now) {
      RefreshedHealthValid(StagedHealth(file, id, now), StagedQuota(file, id, now, base.config.retention),
                           t.byIdentity[id], base.config, now, now);
    }
  }
}
