/**
 The per-account usage ledger as the code runs it: sorted insertion, compaction by binary
 search, the bounded first-in first-out list of seen hashes, and the window estimate.
 */
module Ledger {
  import opened Common
  import opened Windows

  const MAX_DEDUP_HASHES := 4096

  /** The newest hashes, as many as the list may hold. */
  function Newest(hashes: seq<string>): (r: seq<string>)
    ensures |r| <= MAX_DEDUP_HASHES
  {
    if |hashes| > MAX_DEDUP_HASHES then hashes[|hashes| - MAX_DEDUP_HASHES..] else hashes
  }

  /** addEvent: events that cost nothing are not recorded. */
  function Record(events: seq<CreditEvent>, event: CreditEvent): seq<CreditEvent> {
    if event.microcredits <= 0 then events else Insert(events, event)
  }

  class AccountLedger {
    var events: seq<CreditEvent>
    var dedupHashes: seq<string>
    var dedupCollision: bool

    method AddEvent(event: CreditEvent)
      requires Sorted(events)
      modifies this`events
      ensures events == Record(old(events), event)
    {
      if event.microcredits <= 0 {
        return;
      }
      var index := |events|;
      while index > 0 && events[index - 1].at > event.at
        invariant 0 <= index <= |events|
        invariant forall i | index <= i < |events| :: events[i].at > event.at
      {
        index := index - 1;
      }
      FirstAfterUnique(events, event.at, index);
      events := events[..index] + [event] + events[index..];
    }

    method Compact(now: Time, retention: int)
      requires Sorted(events)
      modifies this`events, this`dedupHashes
      ensures events == After(old(events), now - retention)
      ensures dedupHashes == Newest(old(dedupHashes))
    {
      var cutoff := now - retention;
      var first, high := 0, |events|;
      while first < high
        invariant 0 <= first <= high <= |events|
        invariant forall i | 0 <= i < first :: events[i].at <= cutoff
        invariant forall i | high <= i < |events| :: events[i].at > cutoff
      {
        var mid := (first + high) / 2;
        if events[mid].at > cutoff {
          high := mid;
        } else {
          first := mid + 1;
        }
      }
      FirstAfterUnique(events, cutoff, first);
      if first > 0 {
        events := events[first..];
      }
      if |dedupHashes| > MAX_DEDUP_HASHES {
        dedupHashes := dedupHashes[|dedupHashes| - MAX_DEDUP_HASHES..];
      }
    }

    method SeenDedup(hash: string) returns (seen: bool)
      modifies this`dedupHashes, this`dedupCollision
      ensures seen == (hash in old(dedupHashes))
      ensures dedupHashes == if seen then old(dedupHashes) else Newest(old(dedupHashes) + [hash])
      ensures dedupCollision == (seen || old(dedupCollision))
    {
      for i := 0 to |dedupHashes|
        invariant hash !in dedupHashes[..i]
        invariant dedupHashes == old(dedupHashes) && dedupCollision == old(dedupCollision)
      {
        if dedupHashes[i] == hash {
          dedupCollision := true;
          return true;
        }
      }
      dedupHashes := dedupHashes + [hash];
      if |dedupHashes| > MAX_DEDUP_HASHES {
        dedupHashes := dedupHashes[|dedupHashes| - MAX_DEDUP_HASHES..];
      }
      seen := false;
    }
  }

  /** The first loop: the events inside the window, which form the stretch lo..hi, and their saturating sum. */
  method CollectActive(events: seq<CreditEvent>, ghost lo: nat, ghost hi: nat, now: Time, duration: int)
    returns (active: seq<CreditEvent>, consumed: int)
    requires lo <= hi <= |events| && Positive(events)
    requires forall k | 0 <= k < |events| :: events[k].at > now - duration <==> lo <= k
    requires forall k | 0 <= k < |events| :: events[k].at > now <==> hi <= k
    ensures active == events[lo..hi]
    ensures consumed == Consumed(events, now, duration) && 0 <= consumed <= MAX_INT64
  {
    active, consumed := [], 0;
    for i := 0 to |events|
      invariant active == if i <= lo then [] else events[lo..Min(i, hi)]
      invariant consumed == Min(MAX_INT64, Sum(events[..i], now - duration, now))
    {
      assert events[..i + 1] == events[..i] + [events[i]];
      SumExtend(events[..i], events[i], now - duration, now);
      SumNonNegative(events[..i], now - duration, now);
      if events[i].at > now - duration && events[i].at <= now {
        active := active + [events[i]];
        consumed := SaturatingAdd(consumed, events[i].microcredits);
      }
    }
    assert events[..|events|] == events;
    SumNonNegative(events, now - duration, now);
  }

  /**
   The second loop, in 64-bit arithmetic: for a positive bucket the subtraction never leaves
   int64, even when it starts from a saturated total.
   */
  method PredictReset(events: seq<CreditEvent>, ghost lo: nat, ghost hi: nat, active: seq<CreditEvent>,
                      consumed: int, duration: int, bucket: int, percent: int)
    returns (resetsAt: Time)
    requires lo <= hi <= |events| && active == events[lo..hi] && Positive(events)
    requires 0 <= consumed <= MAX_INT64 && bucket <= MAX_INT64 && 1 <= percent <= 100
    requires AtOrAboveThreshold(consumed, bucket, percent)
    ensures bucket <= 0 ==> resetsAt == ZERO_TIME
    ensures bucket > 0 ==>
      var k := FirstBelow(events, consumed, Threshold(bucket, percent), lo, lo, hi);
      resetsAt == if k < hi then events[k].at + duration else ZERO_TIME
  {
    if bucket > 0 {
      ThresholdExact(bucket, percent);
    }
    ghost var threshold := Threshold(bucket, percent);
    var remaining := consumed;
    for j := 0 to |active|
      invariant bucket > 0 ==> remaining == consumed - (Prefix(events, lo + j) - Prefix(events, lo))
      invariant bucket > 0 ==> threshold <= remaining <= MAX_INT64
      invariant bucket > 0 ==>
        FirstBelow(events, consumed, threshold, lo, lo + j, hi) == FirstBelow(events, consumed, threshold, lo, lo, hi)
    {
      assert active[j] == events[lo + j];
      assert bucket > 0 ==> IsInt64(remaining - active[j].microcredits);
      remaining := Wrap64(remaining - active[j].microcredits);
      if !AtOrAboveThreshold(remaining, bucket, percent) {
        return active[j].at + duration;
      }
    }
    resetsAt := ZERO_TIME;
  }

  /** The estimate for one window: the saturating sum is the saturated true sum, and the reset the predicted one. */
  method EstimatedWindow(events: seq<CreditEvent>, now: Time, duration: int, bucket: int, percent: int)
    returns (window: QuotaWindow)
    requires Sorted(events) && Positive(events) && duration >= 0
    requires bucket <= MAX_INT64 && 1 <= percent <= 100
    ensures window == Window(events, now, duration, bucket, percent)
  {
    ghost var lo, hi := FirstAfter(events, now - duration), FirstAfter(events, now);
    var active, consumed := CollectActive(events, lo, hi, now, duration);
    window := QuotaWindow(consumed, bucket, ZERO_TIME);
    if AtOrAboveThreshold(consumed, bucket, percent) {
      var resetsAt := PredictReset(events, lo, hi, active, consumed, duration, bucket, percent);
      window := window.(resetsAt := resetsAt);
    }
  }
}
