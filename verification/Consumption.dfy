/**
 How an account's quota state relates to the estimator: its events and hashes are the estimator's
 book, compaction changes none of its views, and an estimate at its threshold announces a reset.
 */
module Consumption {
  import opened Common
  import opened Windows
  import opened Resets
  import opened Estimator
  import opened State
  import opened Runtime

  // ---------------------------------------------------------------- the book

  function BookOf(q: QuotaState): Book {
    Book(q.events, q.dedupHashes)
  }

  /** A record without usage or from the future never reaches the estimator. */
  function UsageEntries(r: UsageRecord, now: Time, retention: int): seq<Entry> {
    if (r.failed && r.detailEmpty) || EventTime(r, now) > now + MAX_CLOCK_SKEW then []
    else [Delivery(r.hash, EventTime(r, now),
                   if r.price.Some? then Some(r.price.value.0) else None,
                   if r.price.Some? then r.price.value.1 else "", now - retention)]
  }

  /** Entering a record changes hashes and events as handleUsage does, case by case. */
  lemma UsageEnters(q: QuotaState, r: UsageRecord, now: Time, retention: int)
    requires UsageEntries(r, now, retention) != []
    ensures Enter(BookOf(q), UsageEntries(r, now, retention)[0])
      == Book(EventsAfterUsage(q, r, now, retention), HashesAfterUsage(q, r, now))
  {
    NewestTwice(q.dedupHashes + [r.hash], r.hash);
  }

  lemma EnterOne(entries: seq<Entry>, entry: Entry)
    ensures EnterAll(entries + [entry]) == Enter(EnterAll(entries), entry)
  {
    assert (entries + [entry])[..|entries|] == entries;
  }

  lemma UsageBook(q: QuotaState, r: UsageRecord, now: Time, retention: int, entries: seq<Entry>)
    requires BookOf(q) == EnterAll(entries)
    ensures BookOf(QuotaAfterUsage(q, r, now, retention)) == EnterAll(entries + UsageEntries(r, now, retention))
  {
    var more := UsageEntries(r, now, retention);
    if more == [] {
      assert entries + more == entries;
    } else {
      UsageEnters(q, r, now, retention);
      EnterOne(entries, more[0]);
    }
  }

  lemma CompactedBook(q: QuotaState, now: Time, retention: int, entries: seq<Entry>)
    requires BookOf(q) == EnterAll(entries)
    ensures BookOf(Compacted(q, now, retention)) == EnterAll(entries + [Compaction(now - retention)])
  {
    EnterOne(entries, Compaction(now - retention));
  }

  // ---------------------------------------------------------------- the views

  /** The estimator stands in for the five-hour window, or for the weekly one. */
  predicate FiveHourEstimated(q: QuotaState, c: Config, now: Time) {
    !Fresh(q, c, now) || q.authoritative.value.fiveHourError != ""
  }

  /** Compaction with a retention above one week changes no view at that time or any later one, reset included. */
  lemma CompactionKeepsViews(q: QuotaState, a: Account, c: Config, compacted: Time, now: Time)
    requires Sorted(q.events) && Positive(q.events) && ValidConfig(c) && compacted <= now && 0 < now
    ensures Sorted(Compacted(q, compacted, c.retention).events)
    ensures FiveHourView(Compacted(q, compacted, c.retention), a, c, now) == FiveHourView(q, a, c, now)
    ensures WeeklyView(Compacted(q, compacted, c.retention), a, c, now) == WeeklyView(q, a, c, now)
  {
    var cutoff := compacted - c.retention;
    CompactionKeepsWindow(q.events, cutoff, now, FIVE_HOUR_WINDOW, a.fiveHourCredits * CREDIT_SCALE, c.percent);
    CompactionKeepsWindow(q.events, cutoff, now, WEEKLY_WINDOW, a.weeklyCredits * CREDIT_SCALE, c.percent);
  }

  ghost predicate Announced(w: QuotaWindow, percent: int, now: Time, duration: int) {
    AtOrAboveThreshold(w.consumed, w.bucket, percent) ==> now < w.resetsAt <= now + duration
  }

  /** An estimated window at its threshold always announces a reset, ahead by at most its length. */
  lemma EstimateAnnounced(events: seq<CreditEvent>, now: Time, duration: int, credits: int, percent: int)
    requires Sorted(events) && Positive(events) && now > 0 && duration > 0
    requires ValidCreditBucket(credits) && 1 <= percent <= 100
    ensures Announced(Window(events, now, duration, credits * CREDIT_SCALE, percent), percent, now, duration)
  {
    ThresholdPositive(credits, percent);
    if Consumed(events, now, duration) >= Threshold(credits * CREDIT_SCALE, percent) {
      AlwaysAnnounced(events, now, duration, Threshold(credits * CREDIT_SCALE, percent));
    }
  }

  lemma ViewsAnnounced(q: QuotaState, a: Account, c: Config, now: Time)
    requires Sorted(q.events) && Positive(q.events) && ValidAccount(a) && ValidConfig(c) && now > 0
    ensures FiveHourEstimated(q, c, now) ==> Announced(FiveHourView(q, a, c, now), c.percent, now, FIVE_HOUR_WINDOW)
    ensures !Fresh(q, c, now) ==> Announced(WeeklyView(q, a, c, now), c.percent, now, WEEKLY_WINDOW)
  {
    EstimateAnnounced(q.events, now, FIVE_HOUR_WINDOW, a.fiveHourCredits, c.percent);
    EstimateAnnounced(q.events, now, WEEKLY_WINDOW, a.weeklyCredits, c.percent);
  }
}
