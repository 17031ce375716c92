/**
 What survives: recorded events, suspensions and exhaustions, over every interleaving of the
 persistence protocol and across restarts.
 */
module Durability {
  import opened Common
  import opened Store
  import opened Windows
  import opened Ledger
  import opened Quota
  import opened Health
  import opened State
  import opened Runtime
  import opened Failures
  import opened WaitGroups
  import opened Protocol

  /** Something an account must not lose while it matters. */
  datatype Fact =
    | Recorded(id: string, event: CreditEvent, copies: nat, keep: int)  // matters until the event is `keep` old
    | SuspendedTo(id: string, until: Time)
    | ExhaustedTo(id: string, until: Time)

  /** Two records may leave equal events, so how often an event occurs matters. */
  function Copies(events: seq<CreditEvent>, e: CreditEvent): nat {
    multiset(events)[e]
  }

  predicate Moot(f: Fact, clock: Time) {
    match f
    case Recorded(_, event, _, keep) => event.at + keep <= clock
    case SuspendedTo(_, until) => until <= clock
    case ExhaustedTo(_, until) => until <= clock
  }

  predicate InLive(f: Fact, s: Snapshot) {
    match f
    case Recorded(id, event, copies, _) => id in s.quota && Copies(s.quota[id].events, event) >= copies
    case SuspendedTo(id, until) => id in s.health && s.health[id].suspendedUntil >= until
    case ExhaustedTo(id, until) => id in s.health && s.health[id].exhaustedUntil >= until
  }

  predicate InCapture(f: Fact, c: Capture) {
    match f
    case Recorded(id, event, copies, _) => id in c.quota && Copies(c.quota[id].events, event) >= copies
    case SuspendedTo(id, until) => id in c.health && c.health[id].suspendedUntil >= until
    case ExhaustedTo(id, until) => id in c.health && c.health[id].exhaustedUntil >= until
  }

  /** The account is configured, and keeps events at least as long as the fact asks. */
  predicate Configured(f: Fact, s: Snapshot) {
    f.id in s.byIdentity && (f.Recorded? ==> s.config.retention >= f.keep)
  }

  /** The fact holds live, and in everything captured under ticket t or later, written or not. */
  ghost predicate KeptSince(w: World, f: Fact, t: nat) {
    && Configured(f, w.live)
    && (Moot(f, w.clock) || InLive(f, w.live))
    && (forall c | c in w.polls && c.ticket >= t :: Moot(f, w.clock) || InCapture(f, c))
    && (w.handler.Some? && w.handler.value.ticket >= t ==> Moot(f, w.clock) || InCapture(f, w.handler.value))
    && (forall c | c in w.disk.states && c.ticket >= t :: Moot(f, w.clock) || InCapture(f, c))
  }

  /** Every later save, and every content of state.json that a crash can leave, has the fact. */
  ghost predicate Durable(w: World, f: Fact) {
    KeptSince(w, f, w.persisted)
  }

  /** The step keeps the account, does not shorten its retention below the fact's, and does not unblock it. */
  ghost predicate Respects(step: Step, f: Fact) {
    match step
    case CommitStep(staged) => Configured(f, staged)
    case Restart(_, base) => Configured(f, base)
    case UnblockStep(id) => f.ExhaustedTo? ==> id != f.id
    case _ => true
  }

  // ---------------------------------------------------------------- the snapshot's operations

  lemma AfterCopies(events: seq<CreditEvent>, e: CreditEvent, cutoff: Time)
    requires e.at > cutoff
    ensures Copies(After(events, cutoff), e) == Copies(events, e)
  {
    var p := FirstAfter(events, cutoff);
    assert events == events[..p] + events[p..];
    assert e !in events[..p];
  }

  lemma RecordCopies(events: seq<CreditEvent>, event: CreditEvent, e: CreditEvent)
    ensures Copies(Record(events, event), e)
      == Copies(events, e) + if e == event && event.microcredits > 0 then 1 else 0
  {
    SpliceMultiset(events, event, FirstAfter(events, event.at));
  }

  lemma UsageExtendsDeadlines(h: HealthState, r: UsageRecord, now: Time, c: Config)
    ensures HealthAfterUsage(h, r, now, c).suspendedUntil >= h.suspendedUntil
    ensures HealthAfterUsage(h, r, now, c).exhaustedUntil >= h.exhaustedUntil
  {
  }

  lemma UsageKeepsEvent(q: QuotaState, r: UsageRecord, now: Time, retention: int, e: CreditEvent)
    requires e.at + retention > now
    ensures Copies(EventsAfterUsage(q, r, now, retention), e)
      == Copies(q.events, e) + if AcceptedEvent(q, r, now) == Some(e) then 1 else 0
  {
    if Counted(q, r, now) && r.price.Some? {
      var event := CreditEvent(EventTime(r, now), r.price.value.0, r.price.value.1);
      assert AcceptedEvent(q, r, now) == if event.microcredits > 0 then Some(event) else None;
      RecordCopies(q.events, event, e);
      AfterCopies(Record(q.events, event), e, now - retention);
    }
  }

  /** The time of the request, unless the record does not say. */
  function RequestTime(r: UsageRecord, now: Time): Time {
    if r.requestedAt != ZERO_TIME then r.requestedAt else now
  }

  /** The record stands for that event: dated at its request, new, priced, and at most five minutes ahead. */
  predicate StandsFor(q: QuotaState, r: UsageRecord, now: Time, e: CreditEvent) {
    && e.at == RequestTime(r, now) <= now + MAX_CLOCK_SKEW && !(r.failed && r.detailEmpty)
    && r.hash !in q.dedupHashes && r.price == Some((e.microcredits, e.model)) && e.microcredits > 0
  }

  /** A record adds the one event it stands for, and no other. */
  lemma UsageRecords(q: QuotaState, r: UsageRecord, now: Time, retention: int, e: CreditEvent)
    ensures AcceptedEvent(q, r, now) == Some(e) <==> StandsFor(q, r, now, e)
    ensures e.at + retention > now ==>
      Copies(QuotaAfterUsage(q, r, now, retention).events, e)
      == Copies(q.events, e) + if StandsFor(q, r, now, e) then 1 else 0
  {
    if e.at + retention > now {
      UsageKeepsEvent(q, r, now, retention, e);
    }
  }

  /** A record that cannot be counted leaves the ledger alone and a warning behind. */
  lemma UncountedWarns(q: QuotaState, r: UsageRecord, now: Time, retention: int)
    ensures var after := QuotaAfterUsage(q, r, now, retention);
      var uncountable := (r.failed && r.detailEmpty) || RequestTime(r, now) > now + MAX_CLOCK_SKEW;
      && (uncountable || r.hash in q.dedupHashes ==>
            after.events == q.events && after.dedupHashes == q.dedupHashes)
      && (uncountable ==> after.deliveryWarning && after.dedupCollision == q.dedupCollision)
      && (!uncountable && r.hash in q.dedupHashes ==>
            after.dedupCollision && after.deliveryWarning == q.deliveryWarning)
      && (!uncountable && r.hash !in q.dedupHashes ==>
            && r.hash in after.dedupHashes && after.dedupCollision == q.dedupCollision
            && (r.price.None? ==> after.events == q.events && after.deliveryWarning && after.unknownModelWarning)
            && (r.price.Some? ==>
                  after.deliveryWarning == q.deliveryWarning && after.unknownModelWarning == q.unknownModelWarning))
  {
    assert (q.dedupHashes + [r.hash])[|q.dedupHashes|] == r.hash;
  }

  /** No record drops an event before it is a retention period old, or shortens a deadline. */
  lemma UsageKeepsFact(s: Snapshot, id: string, r: UsageRecord, now: Time, clock: Time, f: Fact)
    requires id in s.quota && id in s.health && id in s.byIdentity
    requires Sorted(QuotaAfterUsage(s.quota[id], r, now, s.config.retention).events)
    requires now <= clock && Configured(f, s) && (Moot(f, clock) || InLive(f, s))
    ensures Moot(f, clock) || InLive(f, Usage(s, id, r, now))
  {
    UsageExtendsDeadlines(s.health[id], r, now, s.config);
    if !Moot(f, clock) && f.Recorded? && f.id == id {
      UsageKeepsEvent(s.quota[id], r, now, s.config.retention, f.event);
    }
  }

  /** An accepted event is live, one more than before, unless it is already older than the retention. */
  lemma AcceptedIsLive(s: Snapshot, id: string, r: UsageRecord, now: Time, keep: int)
    requires id in s.quota && id in s.health && id in s.byIdentity && keep <= s.config.retention
    requires Sorted(QuotaAfterUsage(s.quota[id], r, now, s.config.retention).events)
    requires AcceptedEvent(s.quota[id], r, now).Some?
    ensures var f := AcceptedFact(s, id, r, now, keep);
      Moot(f, now) || InLive(f, Usage(s, id, r, now))
  {
    var event := AcceptedEvent(s.quota[id], r, now).value;
    if event.at + keep > now {
      UsageKeepsEvent(s.quota[id], r, now, s.config.retention, event);
    }
  }

  /** What an accepted record establishes: one more copy of its event. */
  function AcceptedFact(s: Snapshot, id: string, r: UsageRecord, now: Time, keep: int): Fact
    requires id in s.quota && AcceptedEvent(s.quota[id], r, now).Some?
  {
    var event := AcceptedEvent(s.quota[id], r, now).value;
    Recorded(id, event, Copies(s.quota[id].events, event) + 1, keep)
  }

  /** The deadline a failure calls for: a suspension, or an exhaustion. */
  ghost predicate CallsFor(s: Snapshot, id: string, r: UsageRecord, now: Time, f: Fact)
    requires id in s.health
  {
    var h, c := s.health[id], s.config;
    || (AuthenticationFailure(r) && f == SuspendedTo(id, now + c.suspendDuration))
    || (Exhausting(h, r, now) && f == ExhaustedTo(id, ExhaustionEnd(h, r, now, c)))
  }

  lemma DeadlineIsLive(s: Snapshot, id: string, r: UsageRecord, now: Time, f: Fact)
    requires id in s.quota && id in s.health && id in s.byIdentity
    requires Sorted(QuotaAfterUsage(s.quota[id], r, now, s.config.retention).events)
    requires CallsFor(s, id, r, now, f)
    ensures InLive(f, Usage(s, id, r, now))
  {
    UsageOutcome(s.health[id], r, now, s.config);
  }

  lemma UnblockKeepsFact(s: Snapshot, id: string, now: Time, f: Fact)
    requires id in s.quota && id in s.health && id in s.byIdentity && Sorted(s.quota[id].events)
    requires f.ExhaustedTo? ==> id != f.id
    requires Configured(f, s) && (Moot(f, now) || InLive(f, s))
    ensures Moot(f, now) || InLive(f, Unblock(s, id, now))
  {
    if !Moot(f, now) && f.Recorded? && f.id == id {
      AfterCopies(s.quota[id].events, f.event, now - s.config.retention);
    }
  }

  lemma CaptureHasFact(s: Snapshot, ticket: nat, now: Time, f: Fact)
    requires now > 0 && (Moot(f, now) || InLive(f, s))
    ensures Moot(f, now) || InCapture(f, Captured(s, ticket, now))
  {
  }

  lemma StagedCopies(file: Capture, id: string, now: Time, retention: int, e: CreditEvent)
    requires id in file.quota && e.at > now - retention
    ensures Copies(StagedQuota(file, id, now, retention).events, e) == Copies(file.quota[id].events, e)
  {
    AfterCopies(file.quota[id].events, e, now - retention);
  }

  lemma StagedDeadlines(file: Capture, id: string, now: Time, until: Time)
    requires id in file.health && until > now
    ensures file.health[id].suspendedUntil >= until ==> StagedHealth(file, id, now).suspendedUntil >= until
    ensures file.health[id].exhaustedUntil >= until ==> StagedHealth(file, id, now).exhaustedUntil >= until
  {
  }

  /** A snapshot with the staged state of the fact's account has the fact. */
  lemma PartsHaveFact(s: Snapshot, file: Capture, now: Time, retention: int, f: Fact)
    requires f.id in s.quota && s.quota[f.id] == StagedQuota(file, f.id, now, retention) && f.id in s.health
    requires s.health[f.id].suspendedUntil == StagedHealth(file, f.id, now).suspendedUntil
    requires s.health[f.id].exhaustedUntil == StagedHealth(file, f.id, now).exhaustedUntil
    requires !Moot(f, now) && InCapture(f, file) && (f.Recorded? ==> retention >= f.keep)
    ensures InLive(f, s)
  {
    if f.Recorded? {
      StagedCopies(file, f.id, now, retention, f.event);
    } else {
      StagedDeadlines(file, f.id, now, f.until);
    }
  }

  lemma StageHasFact(base: Snapshot, file: Capture, now: Time, f: Fact)
    requires Configured(f, base) && (Moot(f, now) || InCapture(f, file))
    requires forall id | id in base.byIdentity :: Sorted(StagedQuota(file, id, now, base.config.retention).events)
    ensures Moot(f, now) || InLive(f, Stage(base, file, now))
  {
    if !Moot(f, now) {
      StageParts(base, file, now, f.id);
      PartsHaveFact(Stage(base, file, now), file, now, base.config.retention, f);
    }
  }

  // ---------------------------------------------------------------- every step keeps a fact

  lemma AdvanceKeepsFact(w: World, s: Snapshot, f: Fact, t: nat)
    requires w.clock > 0 && KeptSince(w, f, t) && Configured(f, s) && (Moot(f, w.clock) || InLive(f, s))
    ensures var (w', c) := Advance(w, s);
      KeptSince(w', f, t) && (Moot(f, w.clock) || InCapture(f, c))
  {
    CaptureHasFact(s, w.next + 1, w.clock, f);
  }

  lemma WriteKeepsFact(w: World, c: Capture, outcome: WriteOutcome, f: Fact, t: nat)
    requires KeptSince(w, f, t) && (c.ticket >= t ==> Moot(f, w.clock) || InCapture(f, c))
    ensures KeptSince(AfterWrite(w, c, outcome), f, t)
  {
    var w' := AfterWrite(w, c, outcome);
    forall d | d in w'.disk.states && d.ticket >= t ensures Moot(f, w.clock) || InCapture(f, d) {
      assert d == c || d in w.disk.states;
    }
  }

  /** Who will write is no part of what is kept. */
  lemma CrewKeepsFact(w: World, crew: Crew, f: Fact, t: nat)
    requires KeptSince(w, f, t)
    ensures KeptSince(w.(crew := crew), f, t)
  {
  }

  lemma UsageStepKeepsFact(w: World, record: UsageRecord, now: Time, f: Fact, t: nat)
    requires Good(w) && Enabled(w, UsageStep(record, now)) && KeptSince(w, f, t)
    ensures KeptSince(AfterUsage(w, record, now), f, t)
  {
    if record.authId in w.live.byAuthId {
      var id := w.live.byAuthId[record.authId];
      UsageKeeps(w.live, id, record, now, w.clock);
      UsageKeepsFact(w.live, id, record, now, w.clock, f);
      AdmissionKeepsFact(w, Usage(w.live, id, record, now), f, t);
    }
  }

  lemma AdmissionKeepsFact(w: World, s: Snapshot, f: Fact, t: nat)
    requires w.clock > 0 && KeptSince(w, f, t) && Configured(f, s) && (Moot(f, w.clock) || InLive(f, s))
    ensures KeptSince(Advance(w, s).0.(handler := Some(Advance(w, s).1), crew := w.crew.Admit()), f, t)
  {
    AdvanceKeepsFact(w, s, f, t);
  }

  lemma PollStepKeepsFact(w: World, step: Step, f: Fact, t: nat)
    requires Good(w) && step.PollStep? && Enabled(w, step) && KeptSince(w, f, t)
    ensures KeptSince(AfterPoll(w, step.goroutine, step.id, step.generation, step.startedAt, step.report), f, t)
  {
    if !Cancelled(w, step.id, step.generation) {
      PollKeepsFact(w.live, step.id, step.report, step.startedAt, f);
      QueueKeepsFact(w, step.goroutine, Poll(w.live, step.id, step.report, step.startedAt), f, t);
    }
  }

  lemma PollKeepsFact(s: Snapshot, id: string, report: Option<QuotaSnapshot>, startedAt: Time, f: Fact)
    requires id in s.quota && id in s.health && id in s.byIdentity && Sorted(s.quota[id].events) && Configured(f, s)
    ensures Configured(f, Poll(s, id, report, startedAt))
    ensures InLive(f, s) ==> InLive(f, Poll(s, id, report, startedAt))
  {
  }

  lemma QueueKeepsFact(w: World, goroutine: nat, s: Snapshot, f: Fact, t: nat)
    requires w.clock > 0 && KeptSince(w, f, t) && Configured(f, s) && (Moot(f, w.clock) || InLive(f, s))
    ensures var (w', c) := Advance(w, s);
      KeptSince(w'.(polls := w.polls + {c}, crew := w.crew.(owner := w.crew.owner[c.ticket := goroutine])), f, t)
  {
    AdvanceKeepsFact(w, s, f, t);
  }

  lemma LiveKeepsFact(w: World, s: Snapshot, f: Fact, t: nat)
    requires KeptSince(w, f, t) && Configured(f, s) && (Moot(f, w.clock) || InLive(f, s))
    ensures KeptSince(w.(live := s), f, t)
  {
  }

  lemma TickKeepsFact(w: World, now: Time, f: Fact, t: nat)
    requires KeptSince(w, f, t) && w.clock <= now
    ensures KeptSince(w.(clock := now), f, t)
  {
  }

  lemma SyncKeepsFact(w: World, f: Fact, t: nat)
    requires KeptSince(w, f, t) && w.disk.Valid()
    ensures KeptSince(w.(disk := w.disk.Sync()), f, t)
  {
  }

  lemma DequeueKeepsFact(w: World, polls: set<Capture>, handler: Option<Capture>, f: Fact, t: nat)
    requires KeptSince(w, f, t) && polls <= w.polls && (handler.None? || handler == w.handler)
    ensures KeptSince(w.(polls := polls, handler := handler), f, t)
  {
  }

  lemma UsageWriteKeepsFact(w: World, outcome: WriteOutcome, f: Fact, t: nat)
    requires w.handler.Some? && w.crew.usage > 0 && KeptSince(w, f, t)
    ensures KeptSince(AfterWrite(w, w.handler.value, outcome).(handler := None, crew := w.crew.Release()), f, t)
  {
    WriteKeepsFact(w, w.handler.value, outcome, f, t);
    DequeueKeepsFact(AfterWrite(w, w.handler.value, outcome), w.polls, None, f, t);
  }

  lemma PollWriteKeepsFact(w: World, capture: Capture, outcome: WriteOutcome, f: Fact, t: nat)
    requires capture in w.polls && KeptSince(w, f, t)
    ensures KeptSince(AfterWrite(w, capture, outcome).(polls := w.polls - {capture}), f, t)
  {
    WriteKeepsFact(w, capture, outcome, f, t);
    DequeueKeepsFact(AfterWrite(w, capture, outcome), w.polls - {capture}, w.handler, f, t);
  }

  lemma UnblockStepKeepsFact(w: World, id: string, f: Fact, t: nat)
    requires id in w.live.quota && id in w.live.health && id in w.live.byIdentity && Sorted(w.live.quota[id].events)
    requires KeptSince(w, f, t) && (f.ExhaustedTo? ==> id != f.id)
    ensures KeptSince(w.(live := Unblock(w.live, id, w.clock)), f, t)
  {
    UnblockKeepsFact(w.live, id, w.clock, f);
    LiveKeepsFact(w, Unblock(w.live, id, w.clock), f, t);
  }

  lemma ReassessStepKeepsFact(w: World, id: string, now: Time, f: Fact, t: nat)
    requires id in w.live.quota && id in w.live.health && id in w.live.byIdentity && Sorted(w.live.quota[id].events)
    requires KeptSince(w, f, t)
    ensures KeptSince(w.(live := Reassess(w.live, id, now)), f, t)
  {
    assert InLive(f, w.live) ==> InLive(f, Reassess(w.live, id, now));
    LiveKeepsFact(w, Reassess(w.live, id, now), f, t);
  }

  lemma CommitStepKeepsFact(w: World, staged: Snapshot, f: Fact, t: nat)
    requires Covered(w.live) && Covered(staged) && Configured(f, staged) && KeptSince(w, f, t)
    ensures KeptSince(w.(live := Commit(w.live, staged), crew := w.crew.(starting := true)), f, t)
  {
    CommitKeepsFact(w.live, staged, w.clock, f);
    LiveKeepsFact(w.(crew := w.crew.(starting := true)), Commit(w.live, staged), f, t);
  }

  lemma ShutdownKeepsFact(w: World, outcome: WriteOutcome, flushed: bool, f: Fact, t: nat)
    requires w.clock > 0 && w.disk.Valid() && KeptSince(w, f, t)
    ensures KeptSince(AfterShutdown(w, outcome, flushed), f, t)
  {
    AdvanceKeepsFact(w, w.live, f, t);
    var c := Advance(w, w.live).1;
    var w' := AfterShutdown(w, outcome, flushed);
    forall d | d in w'.disk.states && d.ticket >= t ensures Moot(f, w.clock) || InCapture(f, d) {
      assert d == c || d in w.disk.states;
    }
  }

  /** Whatever interleaves, a fact that holds live and in everything captured since stays so. */
  lemma StepKeepsFact(w: World, step: Step, f: Fact, t: nat)
    requires Good(w) && Enabled(w, step) && !step.Restart? && Respects(step, f) && KeptSince(w, f, t)
    ensures KeptSince(Apply(w, step), f, t)
  {
    match step
    case Tick(now) => TickKeepsFact(w, now, f, t);
    case UsageStep(record, now) => UsageStepKeepsFact(w, record, now, f, t);
    case UsageWrite(outcome) => UsageWriteKeepsFact(w, outcome, f, t);
    case StartPoller => CrewKeepsFact(w, w.crew.StartPoller(), f, t);
    case CommitDone => CrewKeepsFact(w, w.crew.(starting := false), f, t);
    case BeginRefresh => CrewKeepsFact(w, w.crew.StartRefresh(), f, t);
    case GoroutineDone(goroutine) => CrewKeepsFact(w, w.crew.Done(goroutine), f, t);
    case PollStep(_, _, _, _, _) => PollStepKeepsFact(w, step, f, t);
    case PollWrite(capture, outcome) => PollWriteKeepsFact(w, capture, outcome, f, t);
    case UnblockStep(id) => UnblockStepKeepsFact(w, id, f, t);
    case ReassessStep(id, now) => ReassessStepKeepsFact(w, id, now, f, t);
    case CommitStep(staged) => CommitStepKeepsFact(w, staged, f, t);
    case DirectorySync => SyncKeepsFact(w, f, t);
    case BeginShutdown =>
    case FinishShutdown(outcome, flushed) => ShutdownKeepsFact(w, outcome, flushed, f, t);
  }

  /** Stale staged data never replaces live data of an account that stays. */
  lemma CommitKeepsFact(live: Snapshot, staged: Snapshot, clock: Time, f: Fact)
    requires Covered(live) && Covered(staged) && Configured(f, live) && Configured(f, staged)
    requires Moot(f, clock) || InLive(f, live)
    ensures Configured(f, Commit(live, staged)) && (Moot(f, clock) || InLive(f, Commit(live, staged)))
  {
  }

  lemma RestartKeepsFact(w: World, persisted: nat, base: Snapshot, f: Fact)
    requires Good(w) && Enabled(w, Restart(persisted, base)) && Configured(f, base) && Durable(w, f)
    ensures Durable(AfterRestart(w, persisted, base), f)
  {
    var c := w.disk.states[persisted];
    assert c in w.disk.states && (Moot(f, w.clock) || InCapture(f, c));
    var file := c.(ticket := 0);
    StageKeeps(base, file, w.clock);
    StageHasFact(base, file, w.clock, f);
    FreshDurable(AfterRestart(w, persisted, base), file, f);
  }

  lemma FreshDurable(w: World, file: Capture, f: Fact)
    requires w.handler.None? && w.polls == {} && w.disk.states == [file]
    requires Configured(f, w.live) && (Moot(f, w.clock) || (InLive(f, w.live) && InCapture(f, file)))
    ensures Durable(w, f)
  {
  }

  lemma StepKeepsDurable(w: World, step: Step, f: Fact)
    requires Good(w) && Enabled(w, step) && Respects(step, f) && Durable(w, f)
    ensures Durable(Apply(w, step), f)
  {
    if step.Restart? {
      RestartKeepsFact(w, step.persisted, step.base, f);
    } else {
      StepKeepsFact(w, step, f, w.persisted);
      PersistedGrows(w, step);
    }
  }

  lemma PersistedGrows(w: World, step: Step)
    requires Good(w) && Enabled(w, step) && !step.Restart?
    ensures w.persisted <= Apply(w, step).persisted
  {
  }

  // ---------------------------------------------------------------- deadlines, expired or not

  /** Within a process a deadline is never shortened, not even once it has passed. */
  ghost predicate Kept(f: Fact, s: Snapshot) {
    !f.Recorded? && Configured(f, s) && InLive(f, s)
  }

  lemma UsageKeepsDeadline(s: Snapshot, id: string, r: UsageRecord, now: Time, f: Fact)
    requires id in s.quota && id in s.health && id in s.byIdentity && Kept(f, s)
    requires Sorted(QuotaAfterUsage(s.quota[id], r, now, s.config.retention).events)
    ensures Kept(f, Usage(s, id, r, now))
  {
    UsageExtendsDeadlines(s.health[id], r, now, s.config);
  }

  lemma PollKeepsDeadline(s: Snapshot, id: string, report: Option<QuotaSnapshot>, startedAt: Time, f: Fact)
    requires id in s.quota && id in s.health && id in s.byIdentity && Sorted(s.quota[id].events) && Kept(f, s)
    ensures Kept(f, Poll(s, id, report, startedAt))
  {
  }

  lemma UnblockKeepsDeadline(s: Snapshot, id: string, now: Time, f: Fact)
    requires id in s.quota && id in s.health && id in s.byIdentity && Sorted(s.quota[id].events) && Kept(f, s)
    requires f.ExhaustedTo? ==> id != f.id
    ensures Kept(f, Unblock(s, id, now))
  {
  }

  lemma ReassessKeepsDeadline(s: Snapshot, id: string, now: Time, f: Fact)
    requires id in s.quota && id in s.health && id in s.byIdentity && Sorted(s.quota[id].events) && Kept(f, s)
    ensures Kept(f, Reassess(s, id, now))
  {
  }

  lemma CommitKeepsDeadline(live: Snapshot, staged: Snapshot, f: Fact)
    requires Covered(staged) && Configured(f, staged) && Kept(f, live)
    ensures Kept(f, Commit(live, staged))
  {
  }

  lemma WriteKeepsDeadline(w: World, c: Capture, outcome: WriteOutcome, f: Fact)
    requires Kept(f, w.live)
    ensures Kept(f, AfterWrite(w, c, outcome).live)
  {
  }

  lemma PollStepKeepsDeadline(w: World, step: Step, f: Fact)
    requires Good(w) && step.PollStep? && Kept(f, w.live)
    ensures Kept(f, AfterPoll(w, step.goroutine, step.id, step.generation, step.startedAt, step.report).live)
  {
    if !Cancelled(w, step.id, step.generation) {
      PollKeepsDeadline(w.live, step.id, step.report, step.startedAt, f);
    }
  }

  lemma UsageStepKeepsDeadline(w: World, record: UsageRecord, now: Time, f: Fact)
    requires Good(w) && Enabled(w, UsageStep(record, now)) && Kept(f, w.live)
    ensures Kept(f, AfterUsage(w, record, now).live)
  {
    if record.authId in w.live.byAuthId {
      UsageKeeps(w.live, w.live.byAuthId[record.authId], record, now, w.clock);
      UsageKeepsDeadline(w.live, w.live.byAuthId[record.authId], record, now, f);
    }
  }

  lemma StepKeepsDeadline(w: World, step: Step, f: Fact)
    requires Good(w) && Enabled(w, step) && !step.Restart? && Respects(step, f) && Kept(f, w.live)
    ensures Kept(f, Apply(w, step).live)
  {
    match step
    case UsageStep(record, now) => UsageStepKeepsDeadline(w, record, now, f);
    case UsageWrite(outcome) => WriteKeepsDeadline(w, w.handler.value, outcome, f);
    case PollWrite(capture, outcome) => WriteKeepsDeadline(w, capture, outcome, f);
    case PollStep(_, _, _, _, _) => PollStepKeepsDeadline(w, step, f);
    case UnblockStep(id) => UnblockKeepsDeadline(w.live, id, w.clock, f);
    case ReassessStep(id, now) => ReassessKeepsDeadline(w.live, id, now, f);
    case CommitStep(staged) => CommitKeepsDeadline(w.live, staged, f);
    case _ =>
  }
}
