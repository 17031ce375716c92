/**
 pluginRuntime as the code runs it (internal/providers/zai/runtime.go, management.go): fields that
 handlers, polls, commits and shutdown update in place under its locks. Every method here is one
 region under the locks, and is proved to be exactly one step of the protocol, or a run of steps.
 */
module LiveRuntime {
  import opened Common
  import opened Machine
  import opened Store
  import opened Windows
  import opened Ledger
  import opened Quota
  import opened Health
  import opened State
  import opened Runtime
  import opened Failures
  import opened WaitGroups
  import opened Protocol
  import Unblocking

  // ---------------------------------------------------------------- values the regions compute

  method UsageHealth(before: HealthState, record: UsageRecord, now: Time, config: Config) returns (health: HealthState)
    ensures health == HealthAfterUsage(before, record, now, config)
    ensures Outcome(before, record, now, config, health)
  {
    UsageOutcome(before, record, now, config);
    health := before;
    if record.failed {
      if record.status == 401 || record.status == 403 {
        health := WithSuspension(health, now + config.suspendDuration);
      } else if record.status == 429 {
        var escalate, hint := true, record.hint;
        if record.transient && !health.capacityExhausted && (hint.None? || hint.value.0 <= now + BACKOFF_CAP) {
          var hintedAt := if hint.Some? then hint.value.0 else ZERO_TIME;
          var throttled := WithThrottle(health, now, hintedAt, config.fallbackCooldown);
          health, escalate := throttled.0, throttled.1;
          if escalate {
            hint := None;
          }
        }
        if escalate {
          if hint.None? {
            hint := Some(RateLimitReset(now, health, config.fallbackCooldown));
          }
          health := WithExhaustion(health, hint.value.0, hint.value.1);
        }
      }
    } else if health.throttleStreak > 0 && health.throttledUntil <= now {
      health := WithoutThrottle(health);
    }
  }

  method UsageQuota(before: QuotaState, record: UsageRecord, now: Time, retention: int) returns (quota: QuotaState)
    ensures quota == QuotaAfterUsage(before, record, now, retention)
  {
    quota := before;
    if quota.completeSince == ZERO_TIME {
      quota := quota.(completeSince := now);
    }
    if record.failed && record.detailEmpty {
      quota := quota.(deliveryWarning := true);
    } else {
      var eventAt := EventTime(record, now);
      if eventAt > now + MAX_CLOCK_SKEW {
        quota := quota.(deliveryWarning := true);
      } else if record.hash in quota.dedupHashes {
        quota := quota.(dedupCollision := true);
      } else {
        quota := quota.(dedupHashes := Newest(quota.dedupHashes + [record.hash]));
        if record.price.None? {
          quota := quota.(unknownModelWarning := true, deliveryWarning := true);
        } else {
          var event := CreditEvent(eventAt, record.price.value.0, record.price.value.1);
          quota := Compacted(quota.(events := Record(quota.events, event)), now, retention);
        }
      }
    }
  }

  /** syncPlanFromUpstream changes the one account of that identity, in place. */
  method SyncPlanFromUpstream(before: seq<Account>, id: string, plan: Plan)
    returns (accounts: seq<Account>, changed: bool)
    requires forall i, j | 0 <= i < j < |before| :: before[i].identity != before[j].identity
    ensures accounts == Polled(id, plan).List(before)
    ensures !changed ==> accounts == before
  {
    accounts, changed := before, false;
    if PlanBuckets(plan).None? {
      return;
    }
    for i := 0 to |before|
      invariant accounts == before && !changed
      invariant forall j | 0 <= j < i :: before[j].identity != id
    {
      if before[i].identity == id {
        if before[i].plan != Custom && !Explicit(before[i]) && before[i].plan != plan {
          accounts, changed := before[i := WithPlan(before[i], plan)], true;
        }
        return;
      }
    }
  }

  /** carryForwardNamedPlans edits list and index of the staged snapshot together. */
  method CarryForwardNamedPlans(live: map<string, Account>, before: seq<Account>, index: map<string, Account>)
    returns (accounts: seq<Account>, byIdentity: map<string, Account>)
    requires Indexed(before, index)
    ensures accounts == Carried(live).List(before) && byIdentity == Carried(live).Index(index)
  {
    accounts, byIdentity := before, index;
    for i := 0 to |before|
      invariant |accounts| == |before| && byIdentity.Keys == index.Keys
      invariant forall j | 0 <= j < |before| ::
        accounts[j] == if j < i then Carried(live).Rewrite(before[j]) else before[j]
      invariant forall j | 0 <= j < |before| :: byIdentity[before[j].identity] == accounts[j]
    {
      var staged := accounts[i];
      if staged.identity in live {
        var kept := live[staged.identity];
        if kept.plan != Custom && !Explicit(kept) && !Explicit(staged) && PlanBuckets(kept.plan).Some? {
          accounts := accounts[i := WithPlan(staged, kept.plan)];
          byIdentity := byIdentity[staged.identity := accounts[i]];
        }
      }
    }
    assert accounts == Carried(live).List(before);
    IndexOfList(before, index, byIdentity, Carried(live));
  }

  /** An index that holds every account of the rewritten list is the rewritten index. */
  lemma IndexOfList(accounts: seq<Account>, index: map<string, Account>, rewritten: map<string, Account>,
                    source: PlanSource)
    requires Indexed(accounts, index) && rewritten.Keys == index.Keys
    requires forall j | 0 <= j < |accounts| :: rewritten[accounts[j].identity] == source.Rewrite(accounts[j])
    ensures rewritten == source.Index(index)
  {
    forall id | id in index ensures rewritten[id] == source.Rewrite(index[id]) {
      var j :| 0 <= j < |accounts| && accounts[j] == index[id];
    }
  }

  /** The entries of the live map replace the staged ones of the accounts that both know. */
  method MergeLive<T>(live: map<string, T>, staged: map<string, T>) returns (merged: map<string, T>)
    ensures merged == Merged(live, staged)
  {
    merged := staged;
    var pending := live.Keys;
    while pending != {}
      invariant pending <= live.Keys && merged.Keys == staged.Keys
      invariant forall id | id in staged :: merged[id] == if id in live && id !in pending then live[id] else staged[id]
    {
      var id :| id in pending;
      pending := pending - {id};
      if id in staged {
        merged := merged[id := live[id]];
      }
    }
  }

  /** The unexpired deadlines of all accounts. */
  method PersistHealth(health: map<string, HealthState>, now: Time) returns (saved: map<string, PersistedHealth>)
    ensures saved == map id | id in health && WorthPersisting(Persist(health[id], now)) :: Persist(health[id], now)
  {
    saved := map[];
    var pending := health.Keys;
    while pending != {}
      invariant pending <= health.Keys
      invariant saved == map id | id in health && id !in pending && WorthPersisting(Persist(health[id], now)) ::
        Persist(health[id], now)
    {
      var id :| id in pending;
      pending := pending - {id};
      if WorthPersisting(Persist(health[id], now)) {
        saved := saved[id := Persist(health[id], now)];
      }
    }
  }

  method WarnAccounts(before: map<string, QuotaState>, captured: set<string>) returns (quota: map<string, QuotaState>)
    ensures quota == map id | id in before :: if id in captured then Warn(before[id]) else before[id]
  {
    quota := before;
    var pending := captured;
    while pending != {}
      invariant pending <= captured && quota.Keys == before.Keys
      invariant forall id | id in before ::
        quota[id] == if id in captured && id !in pending then Warn(before[id]) else before[id]
    {
      var id :| id in pending;
      pending := pending - {id};
      if id in quota {
        quota := quota[id := quota[id].(persistenceWarning := true, deliveryWarning := true)];
      }
    }
  }

  // ---------------------------------------------------------------- the runtime

  class PluginRuntime {
    var clock: Time
    var live: Snapshot
    var stopped: bool
    var closed: bool
    var persistNext: nat
    var persisted: nat
    var disk: Disk<Capture>
    var usage: nat
    var workers: nat
    var refreshers: nat
    ghost var handler: Option<Capture>
    ghost var polls: set<Capture>
    ghost var starting: bool
    ghost var pollers: set<nat>
    ghost var leaders: set<nat>
    ghost var owner: map<nat, nat>
    ghost var serial: nat

    /** The runtime with its goroutines and the captures they hold. */
    ghost function View(): World
      reads this
    {
      World(clock, live, stopped, closed, persistNext, persisted, handler, polls, Goroutines(), disk)
    }

    ghost function Goroutines(): Crew
      reads this
    {
      Crew(starting, usage, workers, refreshers, pollers, leaders, owner, serial)
    }

    /** A start from configuration and state.json, with tickets counted from zero. */
    constructor (base: Snapshot, file: Capture, now: Time)
      requires forall id | id in base.byIdentity :: Sorted(StagedQuota(file, id, now, base.config.retention).events)
      ensures View() == StartWorld(base, file, now)
    {
      clock, live, stopped, closed := now, Stage(base, file, now), false, false;
      persistNext, persisted, disk := 0, 0, Disk([file]);
      usage, workers, refreshers := 0, 0, 0;
      handler, polls, starting, pollers, leaders, owner, serial := None, {}, true, {}, {}, map[], 0;
    }

    method RefreshCapacity(id: string, now: Time)
      requires id in live.quota && id in live.health && id in live.byIdentity && Sorted(live.quota[id].events)
      modifies this`live
      ensures live == Reassess(old(live), id, now)
    {
      var refreshed := RefreshedHealth(live.health[id], live.quota[id], live.byIdentity[id], live.config, now);
      live := live.(health := live.health[id := refreshed]);
      assert live.quota == live.quota[id := live.quota[id]];
    }

    method PersistenceSnapshot() returns (capture: Capture)
      modifies this`persistNext
      ensures persistNext == old(persistNext) + 1 && capture == Captured(live, persistNext, clock)
    {
      persistNext := persistNext + 1;
      var health := PersistHealth(live.health, clock);
      capture := Capture(persistNext, live.generation, live.quota, health);
    }

    /** One account's new quota state and deadlines, and then its capacity. */
    method Store(id: string, quota: QuotaState, health: HealthState, now: Time)
      requires id in live.byIdentity && Sorted(quota.events)
      modifies this`live
      ensures live == Put(old(live), id, quota, health, now)
    {
      live := live.(quota := live.quota[id := quota], health := live.health[id := health]);
      RefreshCapacity(id, now);
      PutInPlace(old(live), id, quota, health, now);
    }

    method StoreUsage(id: string, record: UsageRecord, now: Time) returns (capture: Capture)
      requires id in live.quota && id in live.health && id in live.byIdentity
      requires Sorted(QuotaAfterUsage(live.quota[id], record, now, live.config.retention).events)
      modifies this`live, this`persistNext
      ensures live == Usage(old(live), id, record, now)
      ensures persistNext == old(persistNext) + 1 && capture == Captured(live, persistNext, clock)
    {
      var health := UsageHealth(live.health[id], record, now, live.config);
      var quota := UsageQuota(live.quota[id], record, now, live.config.retention);
      Store(id, quota, health, now);
      capture := PersistenceSnapshot();
    }

    /**
     handleUsage from admission to the release of the runtime lock; it still holds the persistence
     lock. UsageNext says that this is the protocol's step.
     */
    method AdmitUsage(record: UsageRecord, now: Time) returns (capture: Option<Capture>)
      requires Admits(live, record, now) && handler.None?
      modifies this`live, this`persistNext, this`usage, this`handler
      ensures handler == capture && usage == old(usage) + (if capture.Some? then 1 else 0)
      ensures capture.Some? <==> !stopped && record.authId in old(live).byAuthId
      ensures capture.None? ==> live == old(live) && persistNext == old(persistNext)
      ensures capture.Some? ==>
        && live == Usage(old(live), old(live).byAuthId[record.authId], record, now)
        && persistNext == old(persistNext) + 1 && capture.value == Captured(live, persistNext, clock)
    {
      if stopped || record.authId !in live.byAuthId {
        return None;
      }
      usage := usage + 1;
      var c := StoreUsage(live.byAuthId[record.authId], record, now);
      handler := Some(c);
      return Some(c);
    }

    /** The plan the quota endpoint reported, for list and index. */
    method SyncPlans(id: string, plan: Plan)
      requires Indexed(live.accounts, live.byIdentity) && id in live.byIdentity
      modifies this`live
      ensures live == RewritePlans(old(live), Polled(id, plan))
    {
      SyncedIndex(live, id, plan);
      var accounts, changed := SyncPlanFromUpstream(live.accounts, id, plan);
      if changed {
        live := live.(accounts := accounts, byIdentity := live.byIdentity[id := SyncPlan(live.byIdentity[id], plan)]);
      }
    }

    method StorePoll(id: string, startedAt: Time, report: Option<QuotaSnapshot>)
      requires id in live.quota && id in live.health && id in live.byIdentity && Sorted(live.quota[id].events)
      requires Indexed(live.accounts, live.byIdentity)
      modifies this`live
      ensures live == Poll(old(live), id, report, startedAt)
    {
      var quota := live.quota[id].(lastPollAttempt := startedAt);
      if report.None? {
        quota := quota.(consecutiveFailures := quota.consecutiveFailures + 1);
      } else {
        quota := quota.(authoritative := report, consecutiveFailures := 0);
        SyncPlans(id, report.value.plan);
      }
      Store(id, quota, live.health[id], startedAt);
    }

    /**
     pollOnce from the answer of the quota endpoint to the release of the runtime lock. PollNext says
     that this is the protocol's step.
     */
    method ApplyPoll(goroutine: nat, id: string, generation: nat, startedAt: Time, report: Option<QuotaSnapshot>)
      returns (capture: Option<Capture>)
      requires Pollable(live, id)
      modifies this`live, this`persistNext, this`polls, this`owner
      ensures capture.None? <==> Cancelled(old(View()), id, generation)
      ensures capture.None? ==>
        live == old(live) && persistNext == old(persistNext) && polls == old(polls) && owner == old(owner)
      ensures capture.Some? ==>
        && live == Poll(old(live), id, report, startedAt)
        && persistNext == old(persistNext) + 1 && capture.value == Captured(live, persistNext, clock)
        && polls == old(polls) + {capture.value} && owner == old(owner)[persistNext := goroutine]
    {
      if stopped || live.generation != generation || id !in live.quota {
        return None;
      }
      StorePoll(id, startedAt, report);
      var c := PersistenceSnapshot();
      polls, owner := polls + {c}, owner[c.ticket := goroutine];
      capture := Some(c);
    }

    /** persistStateLocked; `outcome` is how the write of state.json turns out on an open store. */
    method PersistState(capture: Capture, outcome: WriteOutcome) returns (ok: bool)
      modifies this`disk, this`live, this`persisted
      ensures View() == AfterWrite(old(View()), capture, outcome)
      ensures ok <==> persisted >= capture.ticket
    {
      if capture.ticket <= persisted {
        return true;
      }
      var result := if closed then NotCommitted else outcome;
      disk := Write(disk, capture, result);
      if result != Committed {
        if live.generation == capture.generation {
          var quota := WarnAccounts(live.quota, capture.quota.Keys);
          live := live.(quota := quota);
        }
        return false;
      }
      persisted := capture.ticket;
      ok := true;
    }

    /** The rest of handleUsage: write, then release the persistence lock. */
    method FinishUsage(capture: Capture, outcome: WriteOutcome) returns (ok: bool)
      requires Good(View()) && handler == Some(capture)
      modifies this`disk, this`live, this`persisted, this`handler, this`usage
      ensures View() == Next(old(View()), UsageWrite(outcome))
      ensures ok <==> persisted >= capture.ticket
    {
      ok := PersistState(capture, outcome);
      handler, usage := None, usage - 1;
    }

    /** The rest of pollOnce, once it gets the persistence lock. */
    method FinishPoll(capture: Capture, outcome: WriteOutcome) returns (ok: bool)
      requires Good(View()) && handler.None? && capture in polls
      modifies this`disk, this`live, this`persisted, this`polls
      ensures View() == Next(old(View()), PollWrite(capture, outcome))
      ensures ok <==> persisted >= capture.ticket
    {
      ok := PersistState(capture, outcome);
      polls := polls - {capture};
    }

    /** unblock: the selected accounts one after the other, under one lock. */
    method Unblock(ids: seq<string>) returns (ok: bool)
      requires Complete(live) && forall i | 0 <= i < |ids| :: ids[i] in live.byIdentity
      modifies this`live
      ensures ok <==> !stopped
      ensures View() == if ok then Run(Unblocked, old(View()), UnblockSteps(ids)) else old(View())
      ensures ok ==> Unblocking.OnlyUnblocks(old(live), live, ids)
    {
      if stopped {
        return false;
      }
      UnblockedRunClears(View(), ids);
      for i := 0 to |ids|
        invariant Complete(live) && live.byIdentity == old(live.byIdentity)
        invariant Run(Unblocked, View(), UnblockSteps(ids[i..])) == Run(Unblocked, old(View()), UnblockSteps(ids))
      {
        UnblockStepsTail(View(), ids, i);
        UnblockOne(ids[i]);
      }
      ok := true;
    }

    method UnblockOne(id: string)
      requires Complete(live) && id in live.byIdentity
      modifies this`live
      ensures View() == Unblocked(old(View()), UnblockStep(id))
      ensures Complete(live) && live.byIdentity == old(live.byIdentity)
    {
      Unblocking.UnblockComplete(live, id, clock);
      var health := live.health[id].(exhaustedUntil := ZERO_TIME, exhaustedReason := "");
      Store(id, Compacted(live.quota[id], clock, live.config.retention), WithoutThrottle(health), clock);
    }

    /** commitSnapshotAfter up to the publication of a staged snapshot of the same store. */
    method CommitSnapshot(staged: Snapshot) returns (ok: bool)
      requires Good(View()) && !starting && handler.None? && ValidLive(staged, clock)
      modifies this`live, this`starting
      ensures ok <==> !stopped
      ensures View() == Next(old(View()), CommitStep(staged))
    {
      CommitNext(View(), staged);
      ok := Publish(staged);
    }

    method Publish(staged: Snapshot) returns (ok: bool)
      requires Indexed(staged.accounts, staged.byIdentity) && !starting
      modifies this`live, this`starting
      ensures ok <==> !stopped
      ensures starting == ok
      ensures live == if ok then Commit(old(live), staged) else old(live)
    {
      if stopped {
        return false;
      }
      var accounts, byIdentity := CarryForwardNamedPlans(live.byIdentity, staged.accounts, staged.byIdentity);
      var quota := MergeLive(live.quota, staged.quota);
      var health := MergeLive(live.health, staged.health);
      live := staged.(generation := live.generation + 1, accounts := accounts, byIdentity := byIdentity,
                      quota := quota, health := health);
      starting := true;
      ok := true;
    }

    /** startPollers and the end of the commit: one poller for every account that is not disabled. */
    method StartPollers()
      requires starting
      modifies this`workers, this`pollers, this`serial, this`starting
      ensures Goroutines() == Started(old(Goroutines()), |EnabledAt(live.accounts)|).(starting := false)
    {
      CountsEnabled(live.accounts);
      for i := 0 to |live.accounts|
        invariant Goroutines() == Started(old(Goroutines()), CountEnabled(live.accounts[..i]))
      {
        assert live.accounts[..i + 1][..i] == live.accounts[..i];
        if !live.accounts[i].disabled {
          workers, pollers, serial := workers + 1, pollers + {serial}, serial + 1;
        }
      }
      assert live.accounts[..|live.accounts|] == live.accounts;
      starting := false;
    }

    /** beginRefresh for a new leader. */
    method BeginRefresh() returns (ok: bool)
      modifies this`refreshers, this`leaders, this`serial
      ensures ok <==> !stopped
      ensures Goroutines() == if ok then old(Goroutines()).StartRefresh() else old(Goroutines())
    {
      if stopped {
        return false;
      }
      refreshers, leaders, serial := refreshers + 1, leaders + {serial}, serial + 1;
      ok := true;
    }

    /** Admission closes under the lock that starting pollers takes. */
    method BeginShutdown()
      requires Good(View()) && !starting
      modifies this`stopped
      ensures View() == Next(old(View()), Step.BeginShutdown)
    {
      stopped := true;
    }

    /** The end of shutdown, its waits over: the counters are all it has waited for. */
    method FinishShutdown(outcome: WriteOutcome, flushed: bool) returns (ok: bool)
      requires Good(View()) && stopped && !closed && usage == 0 && workers == 0 && refreshers == 0
      modifies this`disk, this`persistNext, this`persisted, this`closed
      ensures View() == Next(old(View()), Step.FinishShutdown(outcome, flushed))
      ensures ok <==> ShutdownSucceeds(Step.FinishShutdown(outcome, flushed))
    {
      ShutdownNext(View(), outcome, flushed);
      ok := SaveAndClose(outcome, flushed);
    }

    method SaveAndClose(outcome: WriteOutcome, flushed: bool) returns (ok: bool)
      requires disk.Valid() && persisted <= persistNext && !closed
      modifies this`disk, this`persistNext, this`persisted, this`closed
      ensures View() == AfterShutdown(old(View()), outcome, flushed)
      ensures ok <==> outcome == Committed && flushed
    {
      var capture := PersistenceSnapshot();
      ok := false;
      if capture.ticket > persisted {
        disk := Write(disk, capture, outcome);
        if outcome == Committed {
          persisted := capture.ticket;
          ok := flushed;
        }
      }
      if ok {
        disk := disk.Sync();
      }
      closed := true;
    }
  }

  lemma PutInPlace(s: Snapshot, id: string, q: QuotaState, h: HealthState, now: Time)
    requires id in s.byIdentity && Sorted(q.events)
    ensures Reassess(s.(quota := s.quota[id := q], health := s.health[id := h]), id, now) == Put(s, id, q, h, now)
  {
    assert s.quota[id := q][id := q] == s.quota[id := q];
    var refreshed := RefreshedHealth(h, q, s.byIdentity[id], s.config, now);
    assert s.health[id := h][id := refreshed] == s.health[id := refreshed];
  }

  /** Only the polled account's entry of the index can change. */
  lemma SyncedIndex(s: Snapshot, id: string, plan: Plan)
    requires Indexed(s.accounts, s.byIdentity) && id in s.byIdentity
    ensures Polled(id, plan).Index(s.byIdentity) == s.byIdentity[id := SyncPlan(s.byIdentity[id], plan)]
    ensures Polled(id, plan).List(s.accounts) == s.accounts ==> SyncPlan(s.byIdentity[id], plan) == s.byIdentity[id]
  {
    var i :| 0 <= i < |s.accounts| && s.accounts[i] == s.byIdentity[id];
    assert Polled(id, plan).List(s.accounts)[i] == SyncPlan(s.byIdentity[id], plan);
  }

  /** What the region of a usage record relies on; every reachable runtime provides it. */
  ghost predicate Admits(s: Snapshot, record: UsageRecord, now: Time) {
    record.authId in s.byAuthId ==>
      var id := s.byAuthId[record.authId];
      && id in s.quota && id in s.health && id in s.byIdentity
      && Sorted(QuotaAfterUsage(s.quota[id], record, now, s.config.retention).events)
  }

  /** What AdmitUsage does to a runtime that is not stopped. */
  ghost function Admitted(w: World, record: UsageRecord, now: Time): World
    requires Admits(w.live, record, now)
  {
    if record.authId !in w.live.byAuthId then w
    else
      var after := Usage(w.live, w.live.byAuthId[record.authId], record, now);
      w.(live := after, next := w.next + 1, handler := Some(Captured(after, w.next + 1, w.clock)),
         crew := w.crew.Admit())
  }

  lemma UsageNext(w: World, record: UsageRecord, now: Time)
    requires Good(w) && Enabled(w, UsageStep(record, now))
    ensures Admits(w.live, record, now) && Next(w, UsageStep(record, now)) == Admitted(w, record, now)
  {
    assert Admits(w.live, record, now) by {
      if record.authId in w.live.byAuthId {
        UsageKeeps(w.live, w.live.byAuthId[record.authId], record, now, w.clock);
      }
    }
    assert Next(w, UsageStep(record, now)) == Apply(w, UsageStep(record, now)) == AfterUsage(w, record, now);
  }

  /** What the region of a poll relies on; every reachable runtime provides it. */
  ghost predicate Pollable(s: Snapshot, id: string) {
    Indexed(s.accounts, s.byIdentity)
      && (id in s.quota ==> id in s.health && id in s.byIdentity && Sorted(s.quota[id].events))
  }

  /** The step of a poll is what ApplyPoll does. */
  lemma PollNext(w: World, goroutine: nat, id: string, generation: nat, startedAt: Time, report: Option<QuotaSnapshot>)
    requires Good(w) && Enabled(w, PollStep(goroutine, id, generation, startedAt, report))
    ensures Pollable(w.live, id)
    ensures Cancelled(w, id, generation) ==> Next(w, PollStep(goroutine, id, generation, startedAt, report)) == w
    ensures !Cancelled(w, id, generation) ==>
      var after := Poll(w.live, id, report, startedAt);
      Next(w, PollStep(goroutine, id, generation, startedAt, report))
      == w.(live := after, next := w.next + 1, polls := w.polls + {Captured(after, w.next + 1, w.clock)},
            crew := w.crew.(owner := w.crew.owner[w.next + 1 := goroutine]))
  {
    var step := PollStep(goroutine, id, generation, startedAt, report);
    assert Next(w, step) == Apply(w, step) == AfterPoll(w, goroutine, id, generation, startedAt, report);
  }

  lemma CommitNext(w: World, staged: Snapshot)
    requires Good(w) && !w.crew.starting && w.handler.None? && ValidLive(staged, w.clock)
    ensures Next(w, CommitStep(staged))
      == if w.stopped then w else w.(live := Commit(w.live, staged), crew := w.crew.(starting := true))
  {
  }

  lemma ShutdownNext(w: World, outcome: WriteOutcome, flushed: bool)
    requires Good(w) && w.stopped && !w.closed && w.crew.Idle()
    ensures Next(w, Step.FinishShutdown(outcome, flushed)) == AfterShutdown(w, outcome, flushed)
  {
  }

  // ---------------------------------------------------------------- starting pollers

  function CountEnabled(accounts: seq<Account>): nat {
    if accounts == [] then 0
    else CountEnabled(accounts[..|accounts| - 1]) + if accounts[|accounts| - 1].disabled then 0 else 1
  }

  ghost function EnabledAt(accounts: seq<Account>): set<int> {
    set i | 0 <= i < |accounts| && !accounts[i].disabled
  }

  /** It is the number of accounts that are not disabled. */
  lemma {:induction false} CountsEnabled(accounts: seq<Account>)
    ensures CountEnabled(accounts) == |EnabledAt(accounts)|
  {
    if accounts != [] {
      var init, last := accounts[..|accounts| - 1], |accounts| - 1;
      CountsEnabled(init);
      assert EnabledAt(accounts) == if accounts[last].disabled then EnabledAt(init) else EnabledAt(init) + {last};
    }
  }

  /** So many pollers more. */
  function Started(crew: Crew, n: nat): Crew {
    if n == 0 then crew else Started(crew, n - 1).StartPoller()
  }

  ghost function Starting(w: World, step: Step): World {
    if step.StartPoller? then w.(crew := w.crew.StartPoller()) else w
  }

  lemma StartNext(w: World)
    requires Good(w) && w.crew.starting
    ensures Next(w, StartPoller) == Starting(w, StartPoller) && Good(Next(w, StartPoller))
    ensures Next(w, StartPoller).crew.starting
  {
    assert Enabled(w, StartPoller);
    assert Next(w, StartPoller) == Apply(w, StartPoller) == Starting(w, StartPoller);
    StepGood(w, StartPoller);
  }

  lemma {:induction false} StartingRun(w: World, n: nat)
    ensures Run(Starting, w, seq(n, _ => StartPoller)) == w.(crew := Started(w.crew, n))
  {
    if n > 0 {
      StartingRun(w, n - 1);
      var before := w.(crew := Started(w.crew, n - 1));
      assert seq(n, _ => StartPoller) == seq(n - 1, _ => StartPoller) + [StartPoller];
      RunSplit(Starting, w, seq(n - 1, _ => StartPoller), [StartPoller]);
      RunCons(Starting, before, StartPoller, []);
    }
  }

  /** What StartPollers does is a run of the protocol's steps. */
  lemma StartRun(w: World, n: nat)
    requires Good(w) && w.crew.starting
    ensures Run(Next, w, seq(n, _ => StartPoller)) == w.(crew := Started(w.crew, n))
  {
    var inv := (x: World) => Good(x) && x.crew.starting;
    var start := (s: Step) => s.StartPoller?;
    forall x, s | inv(x) && start(s) ensures inv(Next(x, s)) && Next(x, s) == Starting(x, s) {
      StartNext(x);
    }
    RunsAgree(Next, Starting, inv, start, w, seq(n, _ => StartPoller));
    StartingRun(w, n);
  }

  /** The region's change for one account. */
  ghost function Unblocked(w: World, step: Step): World {
    if step.UnblockStep? && Complete(w.live) && step.id in w.live.byIdentity
    then w.(live := Runtime.Unblock(w.live, step.id, w.clock)) else w
  }

  lemma UnblockNext(w: World, id: string)
    requires Good(w) && !w.stopped && id in w.live.byIdentity
    ensures Next(w, UnblockStep(id)) == Unblocked(w, UnblockStep(id)) && Good(Next(w, UnblockStep(id)))
    ensures Next(w, UnblockStep(id)).live.byIdentity == w.live.byIdentity && !Next(w, UnblockStep(id)).stopped
  {
    assert Enabled(w, UnblockStep(id));
    assert Next(w, UnblockStep(id)) == Apply(w, UnblockStep(id)) == w.(live := Runtime.Unblock(w.live, id, w.clock));
    StepGood(w, UnblockStep(id));
  }

  function UnblockSteps(ids: seq<string>): seq<Step> {
    seq(|ids|, i requires 0 <= i < |ids| => UnblockStep(ids[i]))
  }

  lemma UnblockStepsTail(w: World, ids: seq<string>, i: nat)
    requires i < |ids|
    ensures Run(Unblocked, w, UnblockSteps(ids[i..]))
      == Run(Unblocked, Unblocked(w, UnblockStep(ids[i])), UnblockSteps(ids[i + 1..]))
  {
    assert UnblockSteps(ids[i..])[1..] == UnblockSteps(ids[i + 1..]);
  }

  function Selected(steps: seq<Step>): seq<string> {
    seq(|steps|, i requires 0 <= i < |steps| => if steps[i].UnblockStep? then steps[i].id else "")
  }

  /** The region so far: the accounts of the steps done are cleared, and no other is touched. */
  ghost predicate ClearedSoFar(s: Snapshot, t: Snapshot, ids: seq<string>) {
    Complete(t) && t.byIdentity == s.byIdentity && Unblocking.OnlyUnblocks(s, t, ids)
  }

  lemma UnblockedOne(s: Snapshot, w: World, done: seq<Step>, step: Step)
    requires ClearedSoFar(s, w.live, Selected(done)) && step.UnblockStep? && step.id in s.byIdentity
    ensures ClearedSoFar(s, Unblocked(w, step).live, Selected(done + [step]))
  {
    assert Unblocked(w, step).live == Runtime.Unblock(w.live, step.id, w.clock);
    Unblocking.UnblockComplete(w.live, step.id, w.clock);
    Unblocking.UnblockExtends(s, w.live, Selected(done), step.id, w.clock);
    assert Selected(done + [step]) == Selected(done) + [step.id];
  }

  /** The region clears the selected accounts, however often one is named, and touches no other. */
  lemma UnblockedRunClears(w: World, ids: seq<string>)
    requires Complete(w.live) && forall i | 0 <= i < |ids| :: ids[i] in w.live.byIdentity
    ensures Unblocking.OnlyUnblocks(w.live, Run(Unblocked, w, UnblockSteps(ids)).live, ids)
  {
    var inv := (x: World, done: seq<Step>) => ClearedSoFar(w.live, x.live, Selected(done));
    var steps := UnblockSteps(ids);
    assert inv(w, []) by {
      Unblocking.NothingUnblocked(w.live);
    }
    forall x, done, s | s in steps && inv(x, done) ensures inv(Unblocked(x, s), done + [s]) {
      var i :| 0 <= i < |steps| && steps[i] == s;
      UnblockedOne(w.live, x, done, s);
    }
    RunTraces(Unblocked, inv, w, steps);
    assert Selected(steps) == ids;
  }

  /** One unblock of several accounts is a run of single ones. */
  lemma UnblockRun(w: World, ids: seq<string>)
    requires Good(w) && !w.stopped && forall i | 0 <= i < |ids| :: ids[i] in w.live.byIdentity
    ensures Run(Next, w, UnblockSteps(ids)) == Run(Unblocked, w, UnblockSteps(ids))
  {
    var index := w.live.byIdentity;
    var inv := (x: World) => Good(x) && !x.stopped && x.live.byIdentity == index;
    var selected := (s: Step) => s.UnblockStep? && s.id in index;
    forall x, s | inv(x) && selected(s) ensures inv(Next(x, s)) && Next(x, s) == Unblocked(x, s) {
      UnblockNext(x, s.id);
    }
    RunsAgree(Next, Unblocked, inv, selected, w, UnblockSteps(ids));
  }
}
