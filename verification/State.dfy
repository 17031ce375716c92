/** The quota state of an account and the validator every load and save of state.json applies (settings.go). */
module State {
  import opened Common
  import opened Windows
  import opened Ledger
  import opened Quota
  import opened Health

  const MAX_CLOCK_SKEW := 5 * MINUTE

  datatype QuotaState = QuotaState(
    authoritative: Option<QuotaSnapshot>,
    lastPollAttempt: Time,
    consecutiveFailures: int,
    events: seq<CreditEvent>,
    dedupHashes: seq<string>,
    completeSince: Time,
    deliveryWarning: bool,
    persistenceWarning: bool,
    unknownModelWarning: bool,
    dedupCollision: bool)

  const NO_QUOTA := QuotaState(None, ZERO_TIME, 0, [], [], ZERO_TIME, false, false, false, false)

  predicate HexDigit(c: char) {
    '0' <= c <= '9' || 'a' <= c <= 'f' || 'A' <= c <= 'F'
  }

  /** A hex-encoded SHA-256 digest: account identities and dedup hashes. */
  predicate HexDigest(s: string) {
    |s| == 64 && forall i | 0 <= i < |s| :: HexDigit(s[i])
  }

  /** What follows the last slash of the trimmed name is not empty. */
  predicate NamesModel(raw: string) {
    exists i | 0 <= i < |raw| :: !Space(raw[i]) && raw[i] != '/' && forall j | i < j < |raw| :: Space(raw[j])
  }

  predicate ValidEvent(e: CreditEvent, now: Time) {
    e.at != ZERO_TIME && e.at <= now + MAX_CLOCK_SKEW && 0 < e.microcredits <= MAX_INT64 && NamesModel(e.model)
  }

  ghost predicate ValidEvents(events: seq<CreditEvent>, now: Time) {
    Sorted(events) && forall i | 0 <= i < |events| :: ValidEvent(events[i], now)
  }

  ghost predicate ValidHashes(hashes: seq<string>) {
    |hashes| <= MAX_DEDUP_HASHES && forall i | 0 <= i < |hashes| :: HexDigest(hashes[i])
  }

  predicate ValidObservation(authoritative: Option<QuotaSnapshot>, now: Time) {
    authoritative.Some? ==>
      && YEAR_2000 <= authoritative.value.observedAt <= now + MAX_CLOCK_SKEW
      && ValidSnapshot(authoritative.value)
  }

  ghost predicate ValidQuota(q: QuotaState, now: Time) {
    q.consecutiveFailures >= 0 && ValidHashes(q.dedupHashes) && ValidEvents(q.events, now)
      && ValidObservation(q.authoritative, now)
  }

  predicate ValidPersistedHealth(p: PersistedHealth) {
    && (p.suspendedUntil == ZERO_TIME || YEAR_2000 <= p.suspendedUntil < YEAR_10000)
    && (p.exhaustedUntil == ZERO_TIME || YEAR_2000 <= p.exhaustedUntil < YEAR_10000)
    && (p.exhaustedUntil == ZERO_TIME || exists i | 0 <= i < |p.exhaustedReason| :: !Space(p.exhaustedReason[i]))
    && |p.exhaustedReason| <= REASON_LIMIT
  }

  /** The event loop compares neighbours only, which decides the order of the whole list. */
  method ValidateEvents(events: seq<CreditEvent>, now: Time) returns (ok: bool)
    requires forall i | 0 <= i < |events| :: events[i].microcredits <= MAX_INT64
    ensures ok <==> ValidEvents(events, now)
  {
    var last := ZERO_TIME;
    for i := 0 to |events|
      invariant ValidEvents(events[..i], now)
      invariant last == if i == 0 then ZERO_TIME else events[i - 1].at
    {
      if !ValidEvent(events[i], now) || (last != ZERO_TIME && events[i].at < last) {
        return false;
      }
      last := events[i].at;
    }
    assert events[..|events|] == events;
    ok := true;
  }

  method ValidateQuota(q: QuotaState, now: Time) returns (ok: bool)
    requires forall i | 0 <= i < |q.events| :: q.events[i].microcredits <= MAX_INT64
    requires q.authoritative.Some? ==> Representable(q.authoritative.value)
    ensures ok <==> ValidQuota(q, now)
  {
    if q.consecutiveFailures < 0 || |q.dedupHashes| > MAX_DEDUP_HASHES {
      return false;
    }
    if q.authoritative.Some? {
      var s := q.authoritative.value;
      if s.observedAt == ZERO_TIME || s.observedAt < YEAR_2000 || s.observedAt > now + MAX_CLOCK_SKEW {
        return false;
      }
      if |s.fiveHourError| > ERROR_LIMIT {
        return false;
      }
      var windows := [s.weekly];
      if s.fiveHourError == "" {
        windows := windows + [s.fiveHour];
      } else if s.fiveHour != NO_WINDOW {
        return false;
      }
      for i := 0 to |windows|
        invariant forall k | 0 <= k < i :: ValidWindow(windows[k], s.observedAt)
      {
        var w := windows[i];
        if w.consumed < 0 || w.bucket <= 0 || w.consumed > w.bucket
          || (w.resetsAt != ZERO_TIME && w.resetsAt <= s.observedAt) {
          assert w == s.weekly || (s.fiveHourError == "" && w == s.fiveHour);
          return false;
        }
      }
      assert windows[0] == s.weekly && (s.fiveHourError == "" ==> windows[1] == s.fiveHour);
    }
    ok := ValidateEvents(q.events, now);
    if !ok {
      return;
    }
    for i := 0 to |q.dedupHashes|
      invariant forall k | 0 <= k < i :: HexDigest(q.dedupHashes[k])
    {
      if !HexDigest(q.dedupHashes[i]) {
        return false;
      }
    }
  }

  /** What the types of the file format guarantee: 64-bit buckets and four-digit years. */
  predicate Representable(s: QuotaSnapshot) {
    && s.weekly.bucket <= MAX_INT64 && s.weekly.resetsAt < YEAR_10000
    && s.fiveHour.bucket <= MAX_INT64 && s.fiveHour.resetsAt < YEAR_10000
  }

  /** A later clock accepts whatever an earlier one did. */
  lemma ValidQuotaLater(q: QuotaState, now: Time, later: Time)
    requires ValidQuota(q, now) && now <= later
    ensures ValidQuota(q, later)
  {
  }
}
