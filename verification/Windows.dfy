/**
 The rolling-window credit estimator (internal/providers/zai/windows.go): a sorted event
 list, a window's saturated consumption, its exact percentage threshold and the predicted
 time at which it falls below the threshold again.
 */
module Windows {
  import opened Common

  const FIVE_HOUR_WINDOW := 5 * HOUR
  const WEEKLY_WINDOW := WEEK
  const CREDIT_SCALE := 1_000_000
  const MAX_CREDIT_BUCKET := MAX_INT64 / CREDIT_SCALE

  datatype CreditEvent = CreditEvent(at: Time, microcredits: int, model: string)

  datatype QuotaWindow = QuotaWindow(consumed: int, bucket: int, resetsAt: Time)

  predicate ValidCreditBucket(credits: int) {
    0 < credits <= MAX_CREDIT_BUCKET
  }

  // ---------------------------------------------------------------- event lists

  ghost predicate Sorted(events: seq<CreditEvent>) {
    forall i, j | 0 <= i < j < |events| :: events[i].at <= events[j].at
  }

  ghost predicate Positive(events: seq<CreditEvent>) {
    forall i | 0 <= i < |events| :: 0 < events[i].microcredits <= MAX_INT64
  }

  /** The number of leading events dated at or before t. */
  function FirstAfter(events: seq<CreditEvent>, t: Time): (p: nat)
    ensures p <= |events|
    ensures forall i | 0 <= i < p :: events[i].at <= t
    ensures p < |events| ==> events[p].at > t
  {
    Scan(events, t, 0)
  }

  function Scan(events: seq<CreditEvent>, t: Time, from: nat): (p: nat)
    requires from <= |events|
    ensures from <= p <= |events|
    ensures forall i | from <= i < p :: events[i].at <= t
    ensures p < |events| ==> events[p].at > t
    decreases |events| - from
  {
    if from < |events| && events[from].at <= t then Scan(events, t, from + 1) else from
  }

  /** Inserts before the trailing events that are later, so ties keep their order of arrival. */
  function Insert(events: seq<CreditEvent>, event: CreditEvent): seq<CreditEvent> {
    var p := FirstAfter(events, event.at);
    events[..p] + [event] + events[p..]
  }

  lemma InsertKeepsSorted(events: seq<CreditEvent>, event: CreditEvent)
    requires Sorted(events)
    ensures Sorted(Insert(events, event))
    ensures multiset(Insert(events, event)) == multiset(events) + multiset{event}
  {
    var p := FirstAfter(events, event.at);
    SpliceMultiset(events, event, p);
    SpliceSorted(events, event, p);
  }

  lemma SpliceMultiset(events: seq<CreditEvent>, event: CreditEvent, p: nat)
    requires p <= |events|
    ensures multiset(events[..p] + [event] + events[p..]) == multiset(events) + multiset{event}
  {
    assert events == events[..p] + events[p..];
  }

  lemma SpliceSorted(events: seq<CreditEvent>, event: CreditEvent, p: nat)
    requires Sorted(events) && p <= |events|
    requires forall i | 0 <= i < p :: events[i].at <= event.at
    requires p < |events| ==> event.at <= events[p].at
    ensures Sorted(events[..p] + [event] + events[p..])
  {
    var r := events[..p] + [event] + events[p..];
    forall i, j | 0 <= i < j < |r| ensures r[i].at <= r[j].at {
      if j > p {
        assert r[j] == events[j - 1] && event.at <= events[p].at <= events[j - 1].at;
      }
      if i > p {
        assert r[i] == events[i - 1];
      }
    }
  }

  /** Drops the leading events dated at or before the cutoff. */
  function After(events: seq<CreditEvent>, cutoff: Time): seq<CreditEvent> {
    events[FirstAfter(events, cutoff)..]
  }

  /** The true, unbounded consumption in (from, to]. */
  function Sum(events: seq<CreditEvent>, from: Time, to: Time): int {
    if events == [] then 0
    else
      var last := events[|events| - 1];
      Sum(events[..|events| - 1], from, to) + if from < last.at <= to then last.microcredits else 0
  }

  lemma SumExtend(a: seq<CreditEvent>, e: CreditEvent, from: Time, to: Time)
    ensures Sum(a + [e], from, to) == Sum(a, from, to) + if from < e.at <= to then e.microcredits else 0
  {
    assert (a + [e])[..|a|] == a;
  }

  lemma {:induction false} SumConcat(a: seq<CreditEvent>, b: seq<CreditEvent>, from: Time, to: Time)
    ensures Sum(a + b, from, to) == Sum(a, from, to) + Sum(b, from, to)
  {
    if b == [] {
      assert a + b == a;
    } else {
      var init, last := b[..|b| - 1], b[|b| - 1];
      assert (a + b)[..|a + b| - 1] == a + init;
      SumConcat(a, init, from, to);
    }
  }

  lemma {:induction false} SumEmpty(events: seq<CreditEvent>, from: Time, to: Time)
    requires forall i | 0 <= i < |events| :: events[i].at > to || events[i].at <= from
    ensures Sum(events, from, to) == 0
  {
    if events != [] {
      SumEmpty(events[..|events| - 1], from, to);
    }
  }

  lemma {:induction false} SumNonNegative(events: seq<CreditEvent>, from: Time, to: Time)
    requires Positive(events)
    ensures Sum(events, from, to) >= 0
  {
    if events != [] {
      SumNonNegative(events[..|events| - 1], from, to);
    }
  }

  lemma SumInsert(events: seq<CreditEvent>, event: CreditEvent, from: Time, to: Time)
    ensures Sum(Insert(events, event), from, to)
      == Sum(events, from, to) + if from < event.at <= to then event.microcredits else 0
  {
    var p := FirstAfter(events, event.at);
    assert events == events[..p] + events[p..];
    SumConcat(events[..p] + [event], events[p..], from, to);
    SumExtend(events[..p], event, from, to);
    SumConcat(events[..p], events[p..], from, to);
  }

  /** Consumption depends on the events only as a multiset. */
  lemma {:induction false} SumPermutation(a: seq<CreditEvent>, b: seq<CreditEvent>, from: Time, to: Time)
    requires multiset(a) == multiset(b)
    ensures Sum(a, from, to) == Sum(b, from, to)
    decreases |a|
  {
    if a == [] {
      assert |b| == |multiset(b)| == 0;
    } else {
      var init, last := a[..|a| - 1], a[|a| - 1];
      assert a == init + [last];
      assert last in multiset(b);
      var k :| 0 <= k < |b| && b[k] == last;
      assert b == b[..k] + [last] + b[k + 1..];
      assert multiset(b[..k] + b[k + 1..]) == multiset(b) - multiset{last};
      SumPermutation(init, b[..k] + b[k + 1..], from, to);
      SumConcat(b[..k] + [last], b[k + 1..], from, to);
      SumExtend(b[..k], last, from, to);
      SumConcat(b[..k], b[k + 1..], from, to);
    }
  }

  /** Dropping events at or before a cutoff changes no window that starts at or after it. */
  lemma CompactionInvisible(events: seq<CreditEvent>, cutoff: Time, from: Time, to: Time)
    requires cutoff <= from
    ensures Sum(After(events, cutoff), from, to) == Sum(events, from, to)
  {
    var p := FirstAfter(events, cutoff);
    assert events == events[..p] + events[p..];
    SumConcat(events[..p], events[p..], from, to);
    SumEmpty(events[..p], from, to);
  }

  // ---------------------------------------------------------------- prefix totals

  /** The total of the first k events. */
  function Prefix(events: seq<CreditEvent>, k: nat): int
    requires k <= |events|
  {
    if k == 0 then 0 else Prefix(events, k - 1) + events[k - 1].microcredits
  }

  lemma {:induction false} PrefixMonotone(events: seq<CreditEvent>, i: nat, j: nat)
    requires Positive(events) && i <= j <= |events|
    ensures Prefix(events, i) <= Prefix(events, j)
    decreases j
  {
    if i < j {
      PrefixMonotone(events, i, j - 1);
    }
  }

  lemma {:induction false} SumOfStretch(events: seq<CreditEvent>, i: nat, j: nat, from: Time, to: Time)
    requires i <= j <= |events| && forall k | i <= k < j :: from < events[k].at <= to
    ensures Sum(events[i..j], from, to) == Prefix(events, j) - Prefix(events, i)
    decreases j
  {
    if i < j {
      SumOfStretch(events, i, j - 1, from, to);
      assert events[i..j] == events[i..j - 1] + [events[j - 1]];
      SumExtend(events[i..j - 1], events[j - 1], from, to);
    }
  }

  /** In a sorted list a window is a stretch of consecutive events. */
  lemma SumIsPrefixDifference(events: seq<CreditEvent>, from: Time, to: Time)
    requires Sorted(events) && from <= to
    ensures FirstAfter(events, from) <= FirstAfter(events, to)
    ensures Sum(events, from, to) == Prefix(events, FirstAfter(events, to)) - Prefix(events, FirstAfter(events, from))
  {
    var i, j := FirstAfter(events, from), FirstAfter(events, to);
    SumOfSlices(events, i, j, from, to);
  }

  lemma SumOfSlices(events: seq<CreditEvent>, i: nat, j: nat, from: Time, to: Time)
    requires i <= j <= |events|
    requires forall k | 0 <= k < i :: events[k].at <= from
    requires forall k | i <= k < j :: from < events[k].at <= to
    requires forall k | j <= k < |events| :: events[k].at > to
    ensures Sum(events, from, to) == Prefix(events, j) - Prefix(events, i)
  {
    assert events == events[..j] + events[j..] && events[..j] == events[..i] + events[i..j];
    SumConcat(events[..j], events[j..], from, to);
    SumConcat(events[..i], events[i..j], from, to);
    SumEmpty(events[..i], from, to);
    SumEmpty(events[j..], from, to);
    SumOfStretch(events, i, j, from, to);
  }

  lemma FirstAfterVersus(events: seq<CreditEvent>, k: nat, t: Time)
    requires Sorted(events) && k < |events|
    ensures events[k].at > t <==> FirstAfter(events, t) <= k
  {
  }

  lemma FirstAfterUnique(events: seq<CreditEvent>, t: Time, p: nat)
    requires Sorted(events) && p <= |events|
    requires p > 0 ==> events[p - 1].at <= t
    requires p < |events| ==> events[p].at > t
    ensures FirstAfter(events, t) == p
  {
    if p > 0 {
      FirstAfterVersus(events, p - 1, t);
    }
    if p < |events| {
      FirstAfterVersus(events, p, t);
    }
  }

  // ---------------------------------------------------------------- threshold and saturation

  /** The code's overflow-free threshold of a positive bucket. */
  function Threshold(bucket: int, percent: int): int {
    bucket / 100 * percent + bucket % 100 * percent / 100
  }

  predicate AtOrAboveThreshold(consumed: int, bucket: int, percent: int) {
    bucket <= 0 || consumed >= Threshold(bucket, percent)
  }

  /** The split product is the exact floor of bucket * percent / 100, and no intermediate leaves int64. */
  lemma ThresholdExact(bucket: int, percent: int)
    requires 0 < bucket <= MAX_INT64 && 1 <= percent <= 100
    ensures Threshold(bucket, percent) == bucket * percent / 100
    ensures 0 <= bucket / 100 * percent <= bucket && 0 <= bucket % 100 * percent < 10_000
    ensures 0 <= Threshold(bucket, percent) <= bucket
  {
    var q, r := bucket / 100, bucket % 100;
    Distribute(q, r, percent);
    PercentAtMost(q, percent);
    PercentAtMost(r, percent);
    FloorShift(q * percent, r * percent);
  }

  lemma Distribute(q: int, r: int, percent: int)
    ensures (100 * q + r) * percent == 100 * (q * percent) + r * percent
  {
  }

  lemma PercentAtMost(x: nat, percent: int)
    requires 0 <= percent <= 100
    ensures 0 <= x * percent <= 100 * x
  {
    assert 0 <= x * (100 - percent) == 100 * x - x * percent;
  }

  lemma FloorShift(a: int, b: int)
    ensures (100 * a + b) / 100 == a + b / 100
  {
  }

  function SaturatingAdd(left: int, right: int): int {
    if right > 0 && left > MAX_INT64 - right then MAX_INT64 else left + right
  }

  // ---------------------------------------------------------------- the window

  /** With the events lo..k expired, what is left of `total` still meets the threshold. */
  predicate Meets(events: seq<CreditEvent>, total: int, threshold: int, lo: nat, k: nat)
    requires lo <= |events| && k <= |events|
  {
    total - (Prefix(events, k) - Prefix(events, lo)) >= threshold
  }

  /** The first event of from..hi whose expiry leaves less than the threshold, or hi if there is none. */
  function FirstBelow(events: seq<CreditEvent>, total: int, threshold: int, lo: nat, from: nat, hi: nat): (k: nat)
    requires lo <= from <= hi <= |events|
    ensures from <= k <= hi
    ensures forall i | from < i <= k :: Meets(events, total, threshold, lo, i)
    ensures k < hi ==> !Meets(events, total, threshold, lo, k + 1)
    decreases hi - from
  {
    if from == hi || !Meets(events, total, threshold, lo, from + 1) then from
    else FirstBelow(events, total, threshold, lo, from + 1, hi)
  }

  /** The consumption a window reports: the true sum, saturated at the largest int64. */
  function Consumed(events: seq<CreditEvent>, now: Time, duration: int): int {
    Min(MAX_INT64, Sum(events, now - duration, now))
  }

  /** When a window at its threshold will leave it, or the zero time if no expiry takes it there. */
  function ResetTime(events: seq<CreditEvent>, now: Time, duration: int, threshold: int): Time
    requires Sorted(events) && duration >= 0
  {
    SumIsPrefixDifference(events, now - duration, now);
    var lo, hi := FirstAfter(events, now - duration), FirstAfter(events, now);
    var k := FirstBelow(events, Consumed(events, now, duration), threshold, lo, lo, hi);
    if k < hi then events[k].at + duration else ZERO_TIME
  }

  /** What the estimator reports for one window. */
  function Window(events: seq<CreditEvent>, now: Time, duration: int, bucket: int, percent: int): QuotaWindow
    requires Sorted(events) && duration >= 0
  {
    var consumed := Consumed(events, now, duration);
    QuotaWindow(consumed, bucket,
                if bucket > 0 && AtOrAboveThreshold(consumed, bucket, percent)
                then ResetTime(events, now, duration, Threshold(bucket, percent)) else ZERO_TIME)
  }

  // ---------------------------------------------------------------- the announced reset is exact

  /** Before the k-th event expires, the events from it on are all still inside the window. */
  lemma StillAbove(events: seq<CreditEvent>, now: Time, duration: int, threshold: int, k: nat, t: Time)
    requires Sorted(events) && Positive(events) && duration > 0 && k < |events| && threshold <= MAX_INT64
    requires now <= t && t - duration < events[k].at <= now
    requires Prefix(events, FirstAfter(events, now)) - Prefix(events, k) >= threshold
    ensures Consumed(events, t, duration) >= threshold
  {
    SumIsPrefixDifference(events, t - duration, t);
    assert Prefix(events, FirstAfter(events, t - duration)) <= Prefix(events, k) by {
      FirstAfterVersus(events, k, t - duration);
      PrefixMonotone(events, FirstAfter(events, t - duration), k);
    }
    assert Prefix(events, FirstAfter(events, now)) <= Prefix(events, FirstAfter(events, t)) by {
      SumIsPrefixDifference(events, now, t);
      PrefixMonotone(events, FirstAfter(events, now), FirstAfter(events, t));
    }
  }

  /** Once the k-th event expires, it and all earlier ones are gone, ties included. */
  lemma AtReset(events: seq<CreditEvent>, now: Time, duration: int, threshold: int, k: nat)
    requires Sorted(events) && Positive(events) && duration > 0 && k < |events| && threshold <= MAX_INT64
    requires now - duration < events[k].at <= now
    requires Prefix(events, FirstAfter(events, now)) - Prefix(events, k + 1) < threshold
    ensures var reset := events[k].at + duration;
      && Sum(events, reset - duration, now) < threshold
      && Sum(events, reset - duration, reset) == Sum(events, reset - duration, now) + Sum(events, now, reset)
  {
    var reset := events[k].at + duration;
    SumIsPrefixDifference(events, reset - duration, now);
    SumIsPrefixDifference(events, now, reset);
    SumIsPrefixDifference(events, reset - duration, reset);
    FirstAfterVersus(events, k, reset - duration);
    PrefixMonotone(events, k + 1, FirstAfter(events, reset - duration));
  }

  /** The k-th event is the first whose expiry takes what is left below the threshold. */
  lemma ExactAt(events: seq<CreditEvent>, now: Time, duration: int, threshold: int, k: nat)
    requires Sorted(events) && Positive(events) && duration > 0 && threshold <= MAX_INT64
    requires k < |events| && now - duration < events[k].at <= now
    requires Prefix(events, FirstAfter(events, now)) - Prefix(events, k) >= threshold
    requires Prefix(events, FirstAfter(events, now)) - Prefix(events, k + 1) < threshold
    ensures var reset := events[k].at + duration;
      && (forall t | now <= t < reset :: Consumed(events, t, duration) >= threshold)
      && Sum(events, reset - duration, now) < threshold
      && Sum(events, reset - duration, reset) == Sum(events, reset - duration, now) + Sum(events, now, reset)
  {
    AtReset(events, now, duration, threshold, k);
    forall t | now <= t < events[k].at + duration ensures Consumed(events, t, duration) >= threshold {
      StillAbove(events, now, duration, threshold, k, t);
    }
  }

  lemma ResetTimeExact(events: seq<CreditEvent>, now: Time, duration: int, threshold: int)
    requires Sorted(events) && Positive(events) && now > 0 && duration > 0
    requires 0 <= threshold <= Sum(events, now - duration, now) <= MAX_INT64
    ensures var reset := ResetTime(events, now, duration, threshold);
      && (reset == ZERO_TIME <==> threshold == 0)
      && (reset != ZERO_TIME ==>
            && now < reset
            && (forall t | now <= t < reset :: Consumed(events, t, duration) >= threshold)
            && Sum(events, reset - duration, now) < threshold
            && Sum(events, reset - duration, reset) == Sum(events, reset - duration, now) + Sum(events, now, reset))
  {
    var hi := FirstAfter(events, now);
    var k := ResetIndex(events, now, duration, threshold);
    SumIsPrefixDifference(events, now - duration, now);
    if k < hi {
      PrefixMonotone(events, k + 1, hi);
      FirstAfterVersus(events, k, now - duration);
      ExactAt(events, now, duration, threshold, k);
    }
  }

  /**
   A window at its threshold announces a reset unless the threshold itself is zero. With an
   unsaturated sum the announced time is exact: at every earlier time the window is still at
   or above the threshold, and at that time it is below it precisely when what has remained
   plus the events dated between now and then stays below; with no such events it always is.
   */
  lemma ResetExact(events: seq<CreditEvent>, now: Time, duration: int, bucket: int, percent: int)
    requires Sorted(events) && Positive(events) && now > 0 && duration > 0
    requires 0 < bucket <= MAX_INT64 && 1 <= percent <= 100
    requires Sum(events, now - duration, now) <= MAX_INT64
    requires AtOrAboveThreshold(Consumed(events, now, duration), bucket, percent)
    ensures var reset := Window(events, now, duration, bucket, percent).resetsAt;
      var threshold := bucket * percent / 100;
      && (reset == ZERO_TIME <==> threshold == 0)
      && (reset != ZERO_TIME ==>
            && now < reset
            && (forall t | now <= t < reset :: AtOrAboveThreshold(Consumed(events, t, duration), bucket, percent))
            && (!AtOrAboveThreshold(Consumed(events, reset, duration), bucket, percent)
                <==> Sum(events, reset - duration, now) + Sum(events, now, reset) < threshold)
            && ((forall i | 0 <= i < |events| :: events[i].at <= now)
                  ==> !AtOrAboveThreshold(Consumed(events, reset, duration), bucket, percent)))
  {
    ThresholdExact(bucket, percent);
    ResetTimeExact(events, now, duration, Threshold(bucket, percent));
    var reset := Window(events, now, duration, bucket, percent).resetsAt;
    if forall i | 0 <= i < |events| :: events[i].at <= now {
      SumEmpty(events, now, reset);
    }
  }

  // ---------------------------------------------------------------- the report ignores the order of events

  /** The first instant among the active events whose expiry leaves less than the threshold. */
  ghost predicate IsReset(events: seq<CreditEvent>, now: Time, duration: int, threshold: int, at: Time) {
    && (exists e | e in events :: now - duration < e.at <= now && e.at == at)
    && Consumed(events, now, duration) - Sum(events, now - duration, at) < threshold
    && forall e | e in events && now - duration < e.at < at ::
         Consumed(events, now, duration) - Sum(events, now - duration, e.at) >= threshold
  }

  /** What has expired by `at` is at least, or at most, the stretch up to the k-th event. */
  lemma ExpiredBy(events: seq<CreditEvent>, now: Time, duration: int, k: nat, at: Time)
    requires Sorted(events) && Positive(events) && k < |events| && now - duration < at
    requires FirstAfter(events, now - duration) <= k
    ensures var lo := FirstAfter(events, now - duration);
      && (events[k].at <= at ==> Prefix(events, k + 1) - Prefix(events, lo) <= Sum(events, now - duration, at))
      && (events[k].at > at ==> Sum(events, now - duration, at) <= Prefix(events, k) - Prefix(events, lo))
  {
    SumIsPrefixDifference(events, now - duration, at);
    FirstAfterVersus(events, k, at);
    if events[k].at <= at {
      PrefixMonotone(events, k + 1, FirstAfter(events, at));
    } else {
      PrefixMonotone(events, FirstAfter(events, at), k);
    }
  }

  lemma ExpiryIsReset(events: seq<CreditEvent>, now: Time, duration: int, threshold: int, k: nat)
    requires Sorted(events) && Positive(events) && duration > 0
    requires FirstAfter(events, now - duration) <= k < FirstAfter(events, now)
    requires Meets(events, Consumed(events, now, duration), threshold, FirstAfter(events, now - duration), k)
    requires !Meets(events, Consumed(events, now, duration), threshold, FirstAfter(events, now - duration), k + 1)
    ensures IsReset(events, now, duration, threshold, events[k].at)
  {
    FirstAfterVersus(events, k, now - duration);
    assert events[k] in events;
    ExpiredBy(events, now, duration, k, events[k].at);
    forall e | e in events && now - duration < e.at < events[k].at
      ensures Consumed(events, now, duration) - Sum(events, now - duration, e.at) >= threshold
    {
      ExpiredBy(events, now, duration, k, e.at);
    }
  }

  lemma {:induction false} SumGrows(events: seq<CreditEvent>, from: Time, to: Time, later: Time)
    requires Positive(events) && to <= later
    ensures Sum(events, from, to) <= Sum(events, from, later)
  {
    if events != [] {
      SumGrows(events[..|events| - 1], from, to, later);
    }
  }

  lemma NoExpiryNoReset(events: seq<CreditEvent>, now: Time, duration: int, threshold: int, at: Time)
    requires Positive(events) && at <= now
    requires Consumed(events, now, duration) - Sum(events, now - duration, now) >= threshold
    ensures !IsReset(events, now, duration, threshold, at)
  {
    SumGrows(events, now - duration, at, now);
  }

  /** What a reset time says: zero that no expiry takes the total below the threshold, else which one does first. */
  ghost predicate Announces(events: seq<CreditEvent>, now: Time, duration: int, threshold: int, reset: Time) {
    if reset == ZERO_TIME then Consumed(events, now, duration) - Sum(events, now - duration, now) >= threshold
    else IsReset(events, now, duration, threshold, reset - duration)
  }

  /** The loop's index, and what it found there. */
  lemma ResetIndex(events: seq<CreditEvent>, now: Time, duration: int, threshold: int) returns (k: nat)
    requires Sorted(events) && duration > 0 && Consumed(events, now, duration) >= threshold
    ensures FirstAfter(events, now - duration) <= k <= FirstAfter(events, now)
    ensures var lo, hi := FirstAfter(events, now - duration), FirstAfter(events, now);
      var consumed := Consumed(events, now, duration);
      && Meets(events, consumed, threshold, lo, k)
      && (k < hi ==> !Meets(events, consumed, threshold, lo, k + 1))
      && ResetTime(events, now, duration, threshold) == if k < hi then events[k].at + duration else ZERO_TIME
  {
    SumIsPrefixDifference(events, now - duration, now);
    var lo, hi := FirstAfter(events, now - duration), FirstAfter(events, now);
    k := FirstBelow(events, Consumed(events, now, duration), threshold, lo, lo, hi);
  }

  lemma ResetTimeIsReset(events: seq<CreditEvent>, now: Time, duration: int, threshold: int)
    requires Sorted(events) && Positive(events) && now > 0 && duration > 0
    requires Consumed(events, now, duration) >= threshold
    ensures Announces(events, now, duration, threshold, ResetTime(events, now, duration, threshold))
  {
    var k := ResetIndex(events, now, duration, threshold);
    if k < FirstAfter(events, now) {
      assert events[k].at > now - duration by {
        FirstAfterVersus(events, k, now - duration);
      }
      assert IsReset(events, now, duration, threshold, events[k].at) by {
        ExpiryIsReset(events, now, duration, threshold, k);
      }
    } else {
      SumIsPrefixDifference(events, now - duration, now);
    }
  }

  lemma ResetUnique(events: seq<CreditEvent>, now: Time, duration: int, threshold: int, r: Time, s: Time)
    requires Positive(events) && Announces(events, now, duration, threshold, r)
      && Announces(events, now, duration, threshold, s)
    ensures r == s
  {
    if r == ZERO_TIME && s != ZERO_TIME {
      NoExpiryNoReset(events, now, duration, threshold, s - duration);
    } else if r != ZERO_TIME && s == ZERO_TIME {
      NoExpiryNoReset(events, now, duration, threshold, r - duration);
    }
  }

  /** Two lists agree on the events after `from`, and on what they add up to. */
  ghost predicate SameActive(a: seq<CreditEvent>, b: seq<CreditEvent>, from: Time) {
    && (forall e: CreditEvent | from < e.at :: e in a <==> e in b)
    && (forall to: Time :: Sum(a, from, to) == Sum(b, from, to))
  }

  lemma ResetTransfers(a: seq<CreditEvent>, b: seq<CreditEvent>, now: Time, duration: int, threshold: int, reset: Time)
    requires SameActive(a, b, now - duration) && Announces(a, now, duration, threshold, reset)
    ensures Announces(b, now, duration, threshold, reset)
  {
    assert Consumed(a, now, duration) == Consumed(b, now, duration);
  }

  lemma SameReset(a: seq<CreditEvent>, b: seq<CreditEvent>, now: Time, duration: int, threshold: int)
    requires Sorted(a) && Sorted(b) && Positive(a) && Positive(b) && SameActive(a, b, now - duration)
    requires now > 0 && duration > 0 && Consumed(a, now, duration) >= threshold
    ensures ResetTime(b, now, duration, threshold) == ResetTime(a, now, duration, threshold)
  {
    var r := ResetTime(a, now, duration, threshold);
    assert Announces(b, now, duration, threshold, r) by {
      ResetTimeIsReset(a, now, duration, threshold);
      ResetTransfers(a, b, now, duration, threshold, r);
    }
    assert Consumed(a, now, duration) == Consumed(b, now, duration);
    ResetTimeIsReset(b, now, duration, threshold);
    ResetUnique(b, now, duration, threshold, r, ResetTime(b, now, duration, threshold));
  }

  /** The whole report depends only on the active events. */
  lemma SameWindow(a: seq<CreditEvent>, b: seq<CreditEvent>, now: Time, duration: int, bucket: int, percent: int)
    requires Sorted(a) && Sorted(b) && Positive(a) && Positive(b) && SameActive(a, b, now - duration)
    requires now > 0 && duration > 0
    ensures Window(a, now, duration, bucket, percent) == Window(b, now, duration, bucket, percent)
  {
    var threshold := Threshold(bucket, percent);
    assert Consumed(a, now, duration) == Consumed(b, now, duration);
    if Consumed(a, now, duration) >= threshold {
      SameReset(a, b, now, duration, threshold);
    }
  }

  /**
   The whole report depends only on the multiset of events: not on their order of arrival,
   not on how ties are ordered, and not on whether the sum saturates.
   */
  lemma WindowOrderIndependent(a: seq<CreditEvent>, b: seq<CreditEvent>, now: Time, duration: int, bucket: int,
                               percent: int)
    requires Sorted(a) && Sorted(b) && Positive(a) && Positive(b) && multiset(a) == multiset(b)
    requires now > 0 && duration > 0
    ensures Window(a, now, duration, bucket, percent) == Window(b, now, duration, bucket, percent)
  {
    var from := now - duration;
    forall e: CreditEvent ensures e in a <==> e in b {
      assert e in multiset(a) <==> e in multiset(b);
    }
    forall to: Time ensures Sum(a, from, to) == Sum(b, from, to) {
      SumPermutation(a, b, from, to);
    }
    SameWindow(a, b, now, duration, bucket, percent);
  }

  /** The list that results from delivering events one by one. */
  function InsertAll(arrivals: seq<CreditEvent>): (events: seq<CreditEvent>)
    ensures Sorted(events) && multiset(events) == multiset(arrivals)
  {
    if arrivals == [] then []
    else
      var init, last := arrivals[..|arrivals| - 1], arrivals[|arrivals| - 1];
      assert arrivals == init + [last];
      InsertKeepsSorted(InsertAll(init), last);
      Insert(InsertAll(init), last)
  }

  /** Delivering the same events in any two orders yields the same report. */
  lemma ArrivalOrderIrrelevant(a: seq<CreditEvent>, b: seq<CreditEvent>, now: Time, duration: int, bucket: int,
                               percent: int)
    requires Positive(a) && multiset(a) == multiset(b) && now > 0 && duration > 0
    ensures Window(InsertAll(a), now, duration, bucket, percent) == Window(InsertAll(b), now, duration, bucket, percent)
  {
    PermutationPositive(a, InsertAll(a));
    PermutationPositive(a, InsertAll(b));
    WindowOrderIndependent(InsertAll(a), InsertAll(b), now, duration, bucket, percent);
  }

  lemma PermutationPositive(a: seq<CreditEvent>, b: seq<CreditEvent>)
    requires Positive(a) && multiset(a) == multiset(b)
    ensures Positive(b)
  {
    forall i | 0 <= i < |b| ensures 0 < b[i].microcredits <= MAX_INT64 {
      assert b[i] in multiset(a);
    }
  }
}
