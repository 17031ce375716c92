/**
 What an unblock does (internal/providers/zai/management.go): it takes back exhaustion and throttle of the
 selected accounts, and nothing else that keeps requests from them.
 */
module Unblocking {
  import opened Common
  import opened Windows
  import opened Health
  import opened State
  import opened Runtime
  import opened Ladder
  import opened Consumption
  import opened Scheduler

  /** No exhaustion, throttle or streak is left; the suspension stands. */
  predicate Cleared(before: HealthState, after: HealthState) {
    && after.exhaustedUntil == ZERO_TIME && after.exhaustedReason == ""
    && after.throttledUntil == ZERO_TIME && after.throttleStreak == 0
    && after.suspendedUntil == before.suspendedUntil
  }

  ghost predicate HealthUnblocked(before: HealthState, after: HealthState, selected: bool) {
    if selected then Cleared(before, after) else after == before
  }

  ghost predicate QuotaUnblocked(before: QuotaState, after: QuotaState, selected: bool) {
    after == if selected then before.(events := after.events, dedupHashes := after.dedupHashes) else before
  }

  /** The selected accounts are cleared and their ledgers compacted, and nothing else changes. */
  ghost predicate OnlyUnblocks(s: Snapshot, t: Snapshot, ids: seq<string>) {
    && t == s.(quota := t.quota, health := t.health)
    && t.quota.Keys == s.quota.Keys && t.health.Keys == s.health.Keys
    && (forall id | id in s.health :: HealthUnblocked(s.health[id], t.health[id], id in ids))
    && (forall id | id in s.quota :: QuotaUnblocked(s.quota[id], t.quota[id], id in ids))
  }

  /** An unblock of one account; to its ladder it is the signal of that name. */
  lemma UnblockClears(s: Snapshot, id: string, now: Time, fallback: int)
    requires Complete(s) && id in s.byIdentity
    ensures var t, climbed := Unblock(s, id, now), React(s.health[id], Unblocked(now), fallback).0;
      && OnlyUnblocks(s, t, [id]) && Cleared(s.health[id], t.health[id])
      && t.health[id].throttledUntil == climbed.throttledUntil
      && t.health[id].throttleStreak == climbed.throttleStreak
  {
  }

  lemma NothingUnblocked(s: Snapshot)
    ensures OnlyUnblocks(s, s, [])
  {
  }

  /** One unblock after another. */
  lemma UnblocksCompose(s: Snapshot, t: Snapshot, ids: seq<string>, u: Snapshot, id: string)
    requires OnlyUnblocks(s, t, ids) && OnlyUnblocks(t, u, [id])
    ensures OnlyUnblocks(s, u, ids + [id])
  {
    forall other | other in s.health ensures HealthUnblocked(s.health[other], u.health[other], other in ids + [id]) {
      assert HealthUnblocked(s.health[other], t.health[other], other in ids);
      assert HealthUnblocked(t.health[other], u.health[other], other in [id]);
    }
    forall other | other in s.quota ensures QuotaUnblocked(s.quota[other], u.quota[other], other in ids + [id]) {
      assert QuotaUnblocked(s.quota[other], t.quota[other], other in ids);
      assert QuotaUnblocked(t.quota[other], u.quota[other], other in [id]);
    }
  }

  lemma UnblockExtends(s: Snapshot, t: Snapshot, ids: seq<string>, id: string, now: Time)
    requires OnlyUnblocks(s, t, ids) && Complete(t) && id in t.byIdentity
    ensures OnlyUnblocks(s, Unblock(t, id, now), ids + [id])
  {
    var u := Unblock(t, id, now);
    assert OnlyUnblocks(t, u, [id]) by {
      UnblockClears(t, id, now, 0);
    }
    UnblocksCompose(s, t, ids, u, id);
  }

  lemma UnblockComplete(s: Snapshot, id: string, now: Time)
    requires Complete(s) && id in s.byIdentity
    ensures Complete(Unblock(s, id, now)) && Unblock(s, id, now).byIdentity == s.byIdentity
  {
  }

  lemma UnblockKeepsCapacity(s: Snapshot, id: string, now: Time)
    requires Complete(s) && id in s.byIdentity && ValidConfig(s.config) && Positive(s.quota[id].events) && now > 0
    ensures Complete(Unblock(s, id, now)) && (HasCapacity(Unblock(s, id, now), id, now) <==> HasCapacity(s, id, now))
  {
    UnblockComplete(s, id, now);
    CompactionKeepsViews(s.quota[id], s.byIdentity[id], s.config, now, now);
    assert Unblock(s, id, now).quota[id] == Compacted(s.quota[id], now, s.config.retention);
  }

  /**
   To a pick at that time the unblocked account is open exactly when it is neither disabled nor
   suspended and had capacity before: dropping old events gives it none.
   */
  lemma UnblockedOpenIff(s: Snapshot, c: Candidate, now: Time)
    requires ValidLive(s, now) && Managed(s, c) && now > 0 && Complete(s)
    ensures var id := s.byAuthId[c.key];
      var t := Unblock(s, id, now);
      && Complete(t) && Managed(t, c)
      && (Open(t, c, now) <==>
            !s.byIdentity[id].disabled && s.health[id].suspendedUntil <= now && HasCapacity(s, id, now))
  {
    var id := s.byAuthId[c.key];
    assert Positive(s.quota[id].events) by {
      assert ValidQuota(s.quota[id], now);
    }
    UnblockKeepsCapacity(s, id, now);
    UnblockClears(s, id, now, 0);
  }
}
