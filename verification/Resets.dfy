/**
 The announced reset of a window at its threshold, saturated sums included: it is always
 announced, no compaction changes it, and it is exact except in one family of saturated windows.
 */
module Resets {
  import opened Common
  import opened Windows

  // ---------------------------------------------------------------- compaction

  /** An active event survives every compaction whose cutoff does not reach into the window. */
  lemma ActiveSurvives(events: seq<CreditEvent>, cutoff: Time, e: CreditEvent)
    requires Sorted(events) && e.at > cutoff
    ensures e in After(events, cutoff) <==> e in events
  {
    var p := FirstAfter(events, cutoff);
    assert events == events[..p] + After(events, cutoff);
  }

  lemma CompactedPositive(events: seq<CreditEvent>, cutoff: Time)
    requires Sorted(events) && Positive(events)
    ensures Sorted(After(events, cutoff)) && Positive(After(events, cutoff))
  {
  }

  /** Compaction up to the start of a window leaves its whole report as it was, the reset included. */
  lemma CompactionKeepsWindow(events: seq<CreditEvent>, cutoff: Time, now: Time, duration: int, bucket: int,
                              percent: int)
    requires Sorted(events) && Positive(events) && now > 0 && duration > 0 && cutoff <= now - duration
    ensures Sorted(After(events, cutoff))
    ensures Window(After(events, cutoff), now, duration, bucket, percent)
      == Window(events, now, duration, bucket, percent)
  {
    var kept, from := After(events, cutoff), now - duration;
    CompactedPositive(events, cutoff);
    forall e: CreditEvent | from < e.at ensures e in kept <==> e in events {
      ActiveSurvives(events, cutoff, e);
    }
    forall to: Time ensures Sum(kept, from, to) == Sum(events, from, to) {
      CompactionInvisible(events, cutoff, from, to);
    }
    SameWindow(kept, events, now, duration, bucket, percent);
  }

  // ---------------------------------------------------------------- every threshold the code can meet

  /** The smallest bucket at one percent still has a threshold of 10 000 microcredits. */
  lemma ThresholdPositive(credits: int, percent: int)
    requires ValidCreditBucket(credits) && 1 <= percent <= 100
    ensures 0 < Threshold(credits * CREDIT_SCALE, percent) <= credits * CREDIT_SCALE <= MAX_INT64
  {
    ThresholdExact(credits * CREDIT_SCALE, percent);
    AtLeastItself(credits * CREDIT_SCALE, percent);
  }

  lemma AtLeastItself(x: nat, factor: int)
    requires factor >= 1
    ensures x * factor >= x
  {
    assert x * (factor - 1) >= 0;
  }

  /** With a positive threshold some expiry always takes the window below it, even a saturated one. */
  lemma AlwaysAnnounced(events: seq<CreditEvent>, now: Time, duration: int, threshold: int)
    requires Sorted(events) && Positive(events) && now > 0 && duration > 0
    requires 0 < threshold <= Consumed(events, now, duration)
    ensures now < ResetTime(events, now, duration, threshold) <= now + duration
  {
    ResetTimeIsReset(events, now, duration, threshold);
  }

  // ---------------------------------------------------------------- exactness, saturated or not

  ghost predicate NoneAfter(events: seq<CreditEvent>, now: Time) {
    forall e | e in events :: e.at <= now
  }

  /** The window stays at the threshold until the announced time and is below it then. */
  ghost predicate ExactReset(events: seq<CreditEvent>, now: Time, duration: int, threshold: int)
    requires Sorted(events) && duration > 0
  {
    var reset := ResetTime(events, now, duration, threshold);
    && (forall t | now <= t < reset :: Consumed(events, t, duration) >= threshold)
    && Consumed(events, reset, duration) < threshold
  }

  /** When the event expires, the saturated total falls below the threshold and the true one does not. */
  ghost predicate HiddenBySaturation(events: seq<CreditEvent>, now: Time, duration: int, threshold: int,
                                     e: CreditEvent) {
    && now - duration < e.at <= now
    && Consumed(events, now, duration) - Sum(events, now - duration, e.at) < threshold
    && threshold <= Sum(events, now - duration, now) - Sum(events, now - duration, e.at)
  }

  lemma {:induction false} SumSplit(events: seq<CreditEvent>, from: Time, middle: Time, to: Time)
    requires from <= middle <= to
    ensures Sum(events, from, to) == Sum(events, from, middle) + Sum(events, middle, to)
  {
    if events != [] {
      SumSplit(events[..|events| - 1], from, middle, to);
    }
  }

  /** With no later events a window loses exactly what has expired since. */
  lemma LaterConsumed(events: seq<CreditEvent>, now: Time, duration: int, t: Time)
    requires NoneAfter(events, now) && duration > 0 && now <= t <= now + duration
    ensures Sum(events, t - duration, t) == Sum(events, now - duration, now) - Sum(events, now - duration, t - duration)
  {
    SumSplit(events, now - duration, t - duration, now);
    SumSplit(events, t - duration, now, t);
    SumEmpty(events, now, t);
  }

  /** What has expired by a time has expired at the last event up to it. */
  lemma {:induction false} LastExpiry(events: seq<CreditEvent>, from: Time, to: Time)
    requires Sorted(events)
    ensures Sum(events, from, to) == 0
      || exists e | e in events :: from < e.at <= to && Sum(events, from, e.at) == Sum(events, from, to)
  {
    if events != [] {
      var init, last := events[..|events| - 1], events[|events| - 1];
      if from < last.at <= to {
        SameBeyond(events, from, last.at, to);
        assert last in events;
      } else if Sum(init, from, to) != 0 {
        LastExpiry(init, from, to);
        var e :| e in init && from < e.at <= to && Sum(init, from, e.at) == Sum(init, from, to);
        assert e in events;
      }
    }
  }

  lemma {:induction false} SameBeyond(events: seq<CreditEvent>, from: Time, to: Time, later: Time)
    requires to <= later && forall e | e in events :: e.at <= to
    ensures Sum(events, from, to) == Sum(events, from, later)
  {
    if events != [] {
      assert events[|events| - 1] in events;
      SameBeyond(events[..|events| - 1], from, to, later);
    }
  }

  /** Before the announced time the window is at its threshold, saturated or not. */
  lemma AboveBefore(events: seq<CreditEvent>, now: Time, duration: int, threshold: int, at: Time, t: Time)
    requires Sorted(events) && Positive(events) && NoneAfter(events, now) && duration > 0
    requires 0 < threshold <= Consumed(events, now, duration) && IsReset(events, now, duration, threshold, at)
    requires now <= t < at + duration
    ensures Consumed(events, t, duration) >= threshold
  {
    LaterConsumed(events, now, duration, t);
    LastExpiry(events, now - duration, t - duration);
  }

  /**
   With no events after now, a window at its threshold announces the exact time at which it
   leaves it if and only if no active event's expiry is hidden by the saturation of the total.
   */
  lemma ResetExactIff(events: seq<CreditEvent>, now: Time, duration: int, threshold: int)
    requires Sorted(events) && Positive(events) && NoneAfter(events, now) && now > 0 && duration > 0
    requires 0 < threshold <= Consumed(events, now, duration)
    ensures ExactReset(events, now, duration, threshold)
      <==> !exists e | e in events :: HiddenBySaturation(events, now, duration, threshold, e)
  {
    var reset := ResetTime(events, now, duration, threshold);
    var at := reset - duration;
    AlwaysAnnounced(events, now, duration, threshold);
    ResetTimeIsReset(events, now, duration, threshold);
    forall t | now <= t < reset ensures Consumed(events, t, duration) >= threshold {
      AboveBefore(events, now, duration, threshold, at, t);
    }
    LaterConsumed(events, now, duration, reset);
    var first :| first in events && now - duration < first.at <= now && first.at == at;
    assert Consumed(events, reset, duration) >= threshold ==>
      HiddenBySaturation(events, now, duration, threshold, first);
    forall e | e in events && HiddenBySaturation(events, now, duration, threshold, e)
      ensures Consumed(events, reset, duration) >= threshold
    {
      SumGrows(events, now - duration, at, e.at);
    }
  }

  /** Nothing is hidden while the sum does not saturate. */
  lemma UnsaturatedExact(events: seq<CreditEvent>, now: Time, duration: int, threshold: int)
    requires Sorted(events) && Positive(events) && NoneAfter(events, now) && now > 0 && duration > 0
    requires 0 < threshold <= Consumed(events, now, duration) && Sum(events, now - duration, now) <= MAX_INT64
    ensures ExactReset(events, now, duration, threshold)
  {
    ResetExactIff(events, now, duration, threshold);
  }

  /** Without new events a window only declines. */
  lemma {:induction false} SumDeclines(events: seq<CreditEvent>, duration: int, t: Time, later: Time)
    requires Positive(events) && NoneAfter(events, t) && duration > 0 && t <= later
    ensures Sum(events, later - duration, later) <= Sum(events, t - duration, t)
  {
    if events != [] {
      assert events[|events| - 1] in events;
      SumDeclines(events[..|events| - 1], duration, t, later);
    }
  }

  /** The family is not empty: two events of the largest price in a five-hour window with the largest bucket. */
  lemma SaturatedResetIsEarly(first: CreditEvent, second: CreditEvent)
    requires 0 < first.at < second.at < first.at + FIVE_HOUR_WINDOW
    requires first.microcredits == second.microcredits == MAX_INT64
    ensures var events, bucket := [first, second], MAX_CREDIT_BUCKET * CREDIT_SCALE;
      && Sorted(events)
      && Window(events, second.at, FIVE_HOUR_WINDOW, bucket, 100).resetsAt == first.at + FIVE_HOUR_WINDOW
      && !ExactReset(events, second.at, FIVE_HOUR_WINDOW, Threshold(bucket, 100))
  {
    var events, bucket := [first, second], MAX_CREDIT_BUCKET * CREDIT_SCALE;
    var from := second.at - FIVE_HOUR_WINDOW;
    TwoEvents(first, second, from, second.at);
    TwoEvents(first, second, from, first.at);
    ThresholdExact(bucket, 100);
    assert Threshold(bucket, 100) == bucket;
    assert first in events && HiddenBySaturation(events, second.at, FIVE_HOUR_WINDOW, bucket, first);
    ResetExactIff(events, second.at, FIVE_HOUR_WINDOW, bucket);
    ResetTimeIsReset(events, second.at, FIVE_HOUR_WINDOW, bucket);
    assert IsReset(events, second.at, FIVE_HOUR_WINDOW, bucket, first.at);
    ResetUnique(events, second.at, FIVE_HOUR_WINDOW, bucket, first.at + FIVE_HOUR_WINDOW,
                ResetTime(events, second.at, FIVE_HOUR_WINDOW, bucket));
  }

  lemma TwoEvents(first: CreditEvent, second: CreditEvent, from: Time, to: Time)
    ensures Sum([first, second], from, to)
      == (if from < first.at <= to then first.microcredits else 0)
         + (if from < second.at <= to then second.microcredits else 0)
  {
    assert [first, second] == [first] + [second] && [first] == [] + [first];
    SumExtend([first], second, from, to);
    SumExtend([], first, from, to);
  }
}
