/** Parsing the upstream quota report (internal/providers/zai/quota.go), on limits whose JSON numbers are decoded. */
module Quota {
  import opened Common
  import opened Windows

  /** A JSON number: absent, not an exact 64-bit integer, or its value. */
  datatype Number = Missing | Invalid | Value(v: int)

  datatype WireLimit = WireLimit(isCreditLimit: bool, unit: Number, number: Number, usage: Number,
                                 currentValue: Number, remaining: Number, nextResetTime: Number)

  /** A normalised plan name; `Unnamed` is the empty one. */
  datatype Plan = Unnamed | Lite | Pro | Max | Custom

  datatype QuotaSnapshot = QuotaSnapshot(plan: Plan, fiveHour: QuotaWindow, fiveHourError: string,
                                         weekly: QuotaWindow, observedAt: Time)

  const NO_WINDOW := QuotaWindow(0, 0, ZERO_TIME)

  /** Unix milliseconds count from 1970. */
  const UNIX_EPOCH: Time := 719_162 * DAY
  const MILLISECOND := 1_000_000

  predicate NonNegative(n: Number) {
    n.Value? && 0 <= n.v <= MAX_INT64
  }

  function ParseWindow(limit: WireLimit, observedAt: Time): Result<QuotaWindow, string> {
    if !NonNegative(limit.usage) || limit.usage.v == 0 then Err("quota limit has invalid usage")
    else if !NonNegative(limit.currentValue) || limit.currentValue.v > limit.usage.v
    then Err("quota limit has invalid currentValue")
    else if !limit.remaining.Missing? && !NonNegative(limit.remaining) then Err("quota limit has invalid remaining")
    else if limit.usage.v > MAX_CREDIT_BUCKET then Err("quota credits exceed supported range")
    else if limit.nextResetTime.Missing? then
      if limit.currentValue.v != 0 then Err("quota limit has invalid nextResetTime")
      else Ok(QuotaWindow(0, limit.usage.v * CREDIT_SCALE, ZERO_TIME))
    else if !NonNegative(limit.nextResetTime) then Err("quota limit has invalid nextResetTime")
    else
      var reset := UNIX_EPOCH + limit.nextResetTime.v * MILLISECOND;
      if limit.nextResetTime.v == 0 || reset < YEAR_2000 || reset >= YEAR_2201 || reset <= observedAt
      then Err("quota limit has invalid nextResetTime")
      else Ok(QuotaWindow(limit.currentValue.v * CREDIT_SCALE, limit.usage.v * CREDIT_SCALE, reset))
  }

  // ---------------------------------------------------------------- what a limit says

  function ResetGiven(limit: WireLimit): Time {
    if limit.nextResetTime.Value? then UNIX_EPOCH + limit.nextResetTime.v * MILLISECOND else ZERO_TIME
  }

  /** A reset of the years 2000 to 2200, ahead of the observation; or none, on a window that is still unused. */
  predicate ReadableReset(limit: WireLimit, observedAt: Time) {
    || (limit.nextResetTime.Missing? && limit.currentValue == Value(0))
    || (&& limit.nextResetTime.Value? && limit.nextResetTime.v <= MAX_INT64
        && YEAR_2000 <= ResetGiven(limit) < YEAR_2201 && observedAt < ResetGiven(limit))
  }

  /** The limits that say something: a representable number of credits, of which some or none are used. */
  predicate Readable(limit: WireLimit, observedAt: Time) {
    && limit.usage.Value? && 1 <= limit.usage.v <= MAX_CREDIT_BUCKET
    && limit.currentValue.Value? && 0 <= limit.currentValue.v <= limit.usage.v
    && (limit.remaining.Missing? || (limit.remaining.Value? && 0 <= limit.remaining.v <= MAX_INT64))
    && ReadableReset(limit, observedAt)
  }

  /** What such a limit says, in microcredits. */
  function Said(limit: WireLimit): QuotaWindow
    requires limit.usage.Value? && limit.currentValue.Value?
  {
    QuotaWindow(limit.currentValue.v * CREDIT_SCALE, limit.usage.v * CREDIT_SCALE, ResetGiven(limit))
  }

  lemma EpochBeforeResets(ms: int)
    requires YEAR_2000 <= UNIX_EPOCH + ms * MILLISECOND
    ensures ms > 0
  {
  }

  /** Exactly the readable limits are parsed, and into what they say. */
  lemma ParsedIffReadable(limit: WireLimit, observedAt: Time)
    ensures ParseWindow(limit, observedAt).Ok? <==> Readable(limit, observedAt)
    ensures Readable(limit, observedAt) ==> ParseWindow(limit, observedAt) == Ok(Said(limit))
  {
    if limit.nextResetTime.Value? && YEAR_2000 <= ResetGiven(limit) {
      EpochBeforeResets(limit.nextResetTime.v);
    }
  }

  /** A window as the endpoint can report it: whole credits, and a whole millisecond or nothing used. */
  predicate Reportable(w: QuotaWindow, observedAt: Time) {
    && ValidWindow(w, observedAt) && w.consumed % CREDIT_SCALE == 0 && w.bucket % CREDIT_SCALE == 0
    && (if w.resetsAt == ZERO_TIME then w.consumed == 0
        else (w.resetsAt - UNIX_EPOCH) % MILLISECOND == 0 && YEAR_2000 <= w.resetsAt < YEAR_2201)
  }

  /** The endpoint's limit for a window. */
  function Report(w: QuotaWindow, kind: WindowKind): WireLimit {
    WireLimit(true, Value(if kind == FiveHour then 3 else 6), Value(if kind == FiveHour then 5 else 1),
              Value(w.bucket / CREDIT_SCALE), Value(w.consumed / CREDIT_SCALE),
              Value((w.bucket - w.consumed) / CREDIT_SCALE),
              if w.resetsAt == ZERO_TIME then Missing else Value((w.resetsAt - UNIX_EPOCH) / MILLISECOND))
  }

  /** A window that can be reported is read back as it was, an unused one without a reset included. */
  lemma ReportedReadBack(w: QuotaWindow, kind: WindowKind, observedAt: Time)
    requires Reportable(w, observedAt)
    ensures Gives(Report(w, kind), kind) && ParseWindow(Report(w, kind), observedAt) == Ok(w)
  {
    ParsedIffReadable(Report(w, kind), observedAt);
  }

  /** And nothing but such a window is ever read. */
  lemma ReadIsReportable(limit: WireLimit, observedAt: Time)
    requires observedAt >= ZERO_TIME && ParseWindow(limit, observedAt).Ok?
    ensures Reportable(ParseWindow(limit, observedAt).value, observedAt)
  {
    ParsedIffReadable(limit, observedAt);
    ParsedWindowValid(limit, observedAt);
  }

  /** The window a validator accepts for an observation: consumed within a positive bucket, no stale reset. */
  predicate ValidWindow(w: QuotaWindow, observedAt: Time) {
    && 0 <= w.consumed <= w.bucket && 0 < w.bucket <= MAX_INT64
    && (w.resetsAt == ZERO_TIME || observedAt < w.resetsAt < YEAR_10000)
  }

  lemma ParsedWindowValid(limit: WireLimit, observedAt: Time)
    ensures ParseWindow(limit, observedAt).Ok? ==> ValidWindow(ParseWindow(limit, observedAt).value, observedAt)
  {
    if NonNegative(limit.usage) && limit.usage.v <= MAX_CREDIT_BUCKET {
      assert limit.usage.v * CREDIT_SCALE <= MAX_CREDIT_BUCKET * CREDIT_SCALE <= MAX_INT64;
    }
  }

  // ---------------------------------------------------------------- the loop over the limits

  /** One of the two slots the loop assigns to; an empty error means none. */
  datatype Slot = Slot(window: Option<QuotaWindow>, error: string)

  datatype Slots = Slots(fiveHour: Slot, weekly: Slot, unmatched: nat)

  const EMPTY_SLOTS := Slots(Slot(None, ""), Slot(None, ""), 0)

  predicate IsFiveHour(limit: WireLimit) {
    limit.isCreditLimit && limit.unit == Value(3) && limit.number == Value(5)
  }

  predicate IsWeekly(limit: WireLimit) {
    limit.isCreditLimit && limit.unit == Value(6) && limit.number == Value(1)
  }

  function Fill(slot: Slot, limit: WireLimit, observedAt: Time): Slot {
    if slot.window.Some? then Slot(None, "duplicate quota limit")
    else match ParseWindow(limit, observedAt)
      case Ok(window) => slot.(window := Some(window))
      case Err(error) => slot.(error := error)
  }

  function Absorb(slots: Slots, limit: WireLimit, observedAt: Time): Slots {
    if !limit.isCreditLimit then slots
    else if !limit.unit.Value? || !limit.number.Value? then slots.(unmatched := slots.unmatched + 1)
    else if IsFiveHour(limit) then slots.(fiveHour := Fill(slots.fiveHour, limit, observedAt))
    else if IsWeekly(limit) then slots.(weekly := Fill(slots.weekly, limit, observedAt))
    else slots
  }

  function AbsorbAll(limits: seq<WireLimit>, observedAt: Time): Slots {
    if limits == [] then EMPTY_SLOTS
    else Absorb(AbsorbAll(limits[..|limits| - 1], observedAt), limits[|limits| - 1], observedAt)
  }

  const UNMATCHED := "limit has invalid unit or number"

  /** strings.Join of n equal diagnostics. */
  function Joined(n: nat): string {
    if n == 0 then "" else if n == 1 then UNMATCHED else Joined(n - 1) + "; " + UNMATCHED
  }

  /** The snapshot the slots amount to; without a weekly window there is none. */
  function Assemble(slots: Slots, plan: Plan, observedAt: Time): Result<QuotaSnapshot, string> {
    if slots.weekly.window.None? then
      Err(if slots.weekly.error == "" then "missing required weekly quota limit" else slots.weekly.error)
    else if slots.fiveHour.window.Some? then
      Ok(QuotaSnapshot(plan, slots.fiveHour.window.value, "", slots.weekly.window.value, observedAt))
    else
      Ok(QuotaSnapshot(plan, NO_WINDOW,
                       if slots.fiveHour.error != "" then slots.fiveHour.error
                       else if slots.unmatched > 0 then Joined(slots.unmatched)
                       else "missing required five-hour quota limit",
                       slots.weekly.window.value, observedAt))
  }

  function Parse(limits: seq<WireLimit>, plan: Plan, observedAt: Time): Result<QuotaSnapshot, string> {
    Assemble(AbsorbAll(limits, observedAt), plan, observedAt)
  }

  /** The loop as it runs, assigning to the slot of the limit it meets. */
  method ParseQuotaResponse(limits: seq<WireLimit>, plan: Plan, observedAt: Time)
    returns (r: Result<QuotaSnapshot, string>)
    ensures r == Parse(limits, plan, observedAt)
    ensures Tells(limits, plan, observedAt, r)
  {
    ParsedTells(limits, plan, observedAt);
    var fiveHour, weekly, unmatched := Slot(None, ""), Slot(None, ""), 0;
    for i := 0 to |limits|
      invariant Slots(fiveHour, weekly, unmatched) == AbsorbAll(limits[..i], observedAt)
    {
      var limit := limits[i];
      assert limits[..i + 1][..i] == limits[..i];
      if limit.isCreditLimit {
        if !limit.unit.Value? || !limit.number.Value? {
          unmatched := unmatched + 1;
        } else if limit.unit.v == 3 && limit.number.v == 5 {
          fiveHour := Fill(fiveHour, limit, observedAt);
        } else if limit.unit.v == 6 && limit.number.v == 1 {
          weekly := Fill(weekly, limit, observedAt);
        }
      }
    }
    assert limits[..|limits|] == limits;
    r := Assemble(Slots(fiveHour, weekly, unmatched), plan, observedAt);
  }

  // ---------------------------------------------------------------- what a parsed snapshot satisfies

  const ERROR_LIMIT := 240

  /** What the persisted-state validator demands of an authoritative snapshot. */
  predicate ValidSnapshot(s: QuotaSnapshot) {
    && ValidWindow(s.weekly, s.observedAt)
    && (if s.fiveHourError == "" then ValidWindow(s.fiveHour, s.observedAt) else s.fiveHour == NO_WINDOW)
    && |s.fiveHourError| <= ERROR_LIMIT
  }

  ghost predicate GoodSlot(slot: Slot, observedAt: Time) {
    && (slot.window.Some? ==> ValidWindow(slot.window.value, observedAt))
    && |slot.error| <= 40
  }

  lemma {:induction false} SlotsGood(limits: seq<WireLimit>, observedAt: Time)
    ensures GoodSlot(AbsorbAll(limits, observedAt).fiveHour, observedAt)
    ensures GoodSlot(AbsorbAll(limits, observedAt).weekly, observedAt)
  {
    if limits != [] {
      SlotsGood(limits[..|limits| - 1], observedAt);
      ParsedWindowValid(limits[|limits| - 1], observedAt);
    }
  }

  lemma {:induction false} JoinedLength(n: nat)
    ensures |Joined(n)| == if n == 0 then 0 else 34 * n - 2
  {
    if n > 1 {
      JoinedLength(n - 1);
    }
  }

  // ---------------------------------------------------------------- which limit a slot trusts

  datatype WindowKind = FiveHour | Weekly

  predicate Gives(limit: WireLimit, kind: WindowKind) {
    if kind == FiveHour then IsFiveHour(limit) else IsWeekly(limit)
  }

  function SlotOf(slots: Slots, kind: WindowKind): Slot {
    if kind == FiveHour then slots.fiveHour else slots.weekly
  }

  /** The readable limits of a window after its last unreadable one; limits of other kinds do not count. */
  function ReadableRun(limits: seq<WireLimit>, kind: WindowKind, observedAt: Time): nat {
    if limits == [] then 0
    else
      var before, last := ReadableRun(limits[..|limits| - 1], kind, observedAt), limits[|limits| - 1];
      if !Gives(last, kind) then before else if Readable(last, observedAt) then before + 1 else 0
  }

  /** The last limit given for a window. */
  function LastGiven(limits: seq<WireLimit>, kind: WindowKind): Option<WireLimit> {
    if limits == [] then None
    else if Gives(limits[|limits| - 1], kind) then Some(limits[|limits| - 1])
    else LastGiven(limits[..|limits| - 1], kind)
  }

  lemma {:induction false} RunEndsReadable(limits: seq<WireLimit>, kind: WindowKind, observedAt: Time)
    ensures ReadableRun(limits, kind, observedAt) > 0 ==>
      LastGiven(limits, kind).Some? && Readable(LastGiven(limits, kind).value, observedAt)
  {
    if limits != [] {
      RunEndsReadable(limits[..|limits| - 1], kind, observedAt);
    }
  }

  /** The window of a report that is trusted, if any. */
  function Trusted(limits: seq<WireLimit>, kind: WindowKind, observedAt: Time): Option<QuotaWindow> {
    RunEndsReadable(limits, kind, observedAt);
    if ReadableRun(limits, kind, observedAt) % 2 == 1 then Some(Said(LastGiven(limits, kind).value)) else None
  }

  /**
   Duplicates do not always fail closed. Over every report, a window is trusted if and only if the
   number of its readable limits after its last unreadable one is odd, and then it is what the last
   of them says.
   */
  lemma {:induction false} DuplicatesAlternate(limits: seq<WireLimit>, kind: WindowKind, observedAt: Time)
    ensures SlotOf(AbsorbAll(limits, observedAt), kind).window == Trusted(limits, kind, observedAt)
  {
    if limits != [] {
      DuplicatesAlternate(limits[..|limits| - 1], kind, observedAt);
      ParsedIffReadable(limits[|limits| - 1], observedAt);
    }
  }

  /** What a parsed report says: both trusted windows, or a diagnostic in place of the five-hour one. */
  ghost predicate Tells(limits: seq<WireLimit>, plan: Plan, observedAt: Time, r: Result<QuotaSnapshot, string>) {
    var fiveHour, weekly := Trusted(limits, FiveHour, observedAt), Trusted(limits, Weekly, observedAt);
    && (r.Ok? <==> weekly.Some?)
    && (r.Ok? ==>
          && r.value.plan == plan && r.value.observedAt == observedAt && r.value.weekly == weekly.value
          && (r.value.fiveHourError == "" <==> fiveHour.Some?)
          && r.value.fiveHour == if fiveHour.Some? then fiveHour.value else NO_WINDOW)
  }

  lemma ParsedTells(limits: seq<WireLimit>, plan: Plan, observedAt: Time)
    ensures Tells(limits, plan, observedAt, Parse(limits, plan, observedAt))
  {
    DuplicatesAlternate(limits, FiveHour, observedAt);
    DuplicatesAlternate(limits, Weekly, observedAt);
    JoinedLength(AbsorbAll(limits, observedAt).unmatched);
  }

  /** A snapshot that can be reported is read back as it was. */
  lemma SnapshotReadBack(fiveHour: QuotaWindow, weekly: QuotaWindow, plan: Plan, observedAt: Time)
    requires Reportable(fiveHour, observedAt) && Reportable(weekly, observedAt)
    ensures Parse([Report(fiveHour, FiveHour), Report(weekly, Weekly)], plan, observedAt)
      == Ok(QuotaSnapshot(plan, fiveHour, "", weekly, observedAt))
  {
    var five, week := Report(fiveHour, FiveHour), Report(weekly, Weekly);
    ReportedReadBack(fiveHour, FiveHour, observedAt);
    ReportedReadBack(weekly, Weekly, observedAt);
    assert [five, week][..1] == [five] && [five][..0] == [];
    assert AbsorbAll([five], observedAt) == Absorb(EMPTY_SLOTS, five, observedAt);
    assert AbsorbAll([five, week], observedAt) == Absorb(AbsorbAll([five], observedAt), week, observedAt);
  }

  /** Three readable limits for one window, and a five-hour limit among them: the third is trusted. */
  lemma ThirdDuplicateTrusted(a: WireLimit, b: WireLimit, c: WireLimit, other: WireLimit, observedAt: Time)
    requires IsWeekly(a) && IsWeekly(b) && IsWeekly(c) && IsFiveHour(other)
    requires Readable(a, observedAt) && Readable(b, observedAt) && Readable(c, observedAt)
    ensures AbsorbAll([a, b, other, c], observedAt).weekly.window == Some(Said(c))
    ensures AbsorbAll([a, b, other], observedAt).weekly.window == None
  {
    assert [a, b, other, c][..3] == [a, b, other] && [a, b, other][..2] == [a, b];
    assert [a, b][..1] == [a] && [a][..0] == [];
    assert ReadableRun([a], Weekly, observedAt) == 1 && ReadableRun([a, b], Weekly, observedAt) == 2;
    assert ReadableRun([a, b, other], Weekly, observedAt) == 2;
    DuplicatesAlternate([a, b, other, c], Weekly, observedAt);
    DuplicatesAlternate([a, b, other], Weekly, observedAt);
  }

  // ---------------------------------------------------------------- which snapshots can be persisted

  predicate Unmatched(limit: WireLimit) {
    limit.isCreditLimit && (!limit.unit.Value? || !limit.number.Value?)
  }

  function CountUnmatched(limits: seq<WireLimit>): nat {
    if limits == [] then 0
    else CountUnmatched(limits[..|limits| - 1]) + if Unmatched(limits[|limits| - 1]) then 1 else 0
  }

  /** The five-hour slot is untouched, with no window and no error, exactly when no limit was given for it. */
  lemma {:induction false} UntouchedSlot(limits: seq<WireLimit>, observedAt: Time)
    ensures AbsorbAll(limits, observedAt).unmatched == CountUnmatched(limits)
    ensures AbsorbAll(limits, observedAt).fiveHour == Slot(None, "") <==> LastGiven(limits, FiveHour).None?
  {
    if limits != [] {
      UntouchedSlot(limits[..|limits| - 1], observedAt);
    }
  }

  /**
   A parsed snapshot can be persisted exactly when the report has a five-hour limit or fewer than
   eight credit limits of unreadable unit or number: their joined diagnostic is not bounded before
   it is stored.
   */
  lemma ParsedSnapshotValidIff(limits: seq<WireLimit>, plan: Plan, observedAt: Time)
    requires Parse(limits, plan, observedAt).Ok?
    ensures ValidSnapshot(Parse(limits, plan, observedAt).value)
      <==> LastGiven(limits, FiveHour).Some? || CountUnmatched(limits) < 8
  {
    SlotsGood(limits, observedAt);
    UntouchedSlot(limits, observedAt);
    JoinedLength(AbsorbAll(limits, observedAt).unmatched);
  }

  /** One good weekly limit, and eight whose unit and number are missing. */
  function UnreadableReport(): seq<WireLimit> {
    var weekly := WireLimit(true, Value(6), Value(1), Value(1), Value(0), Missing, Missing);
    var unreadable := WireLimit(true, Missing, Missing, Value(1), Value(0), Missing, Missing);
    [weekly] + seq(8, _ => unreadable)
  }

  /** Such a report is parsed into a snapshot that the persisted-state validator refuses. */
  lemma UnboundedDiagnostic(observedAt: Time)
    ensures var parsed := Parse(UnreadableReport(), Unnamed, observedAt);
      parsed.Ok? && !ValidSnapshot(parsed.value)
  {
    var limits := UnreadableReport();
    assert AbsorbAll(limits[..1], observedAt).weekly.window.Some? by {
      assert limits[..1][..0] == [] && limits[..1][0] == limits[0];
    }
    UnreadableLimits(limits, observedAt, 8);
    ParsedSnapshotValidIff(limits, Unnamed, observedAt);
  }

  lemma {:induction false} UnreadableLimits(limits: seq<WireLimit>, observedAt: Time, n: nat)
    requires n < |limits|
    requires forall i | |limits| - n <= i < |limits| :: limits[i].isCreditLimit && limits[i].unit.Missing?
    ensures AbsorbAll(limits, observedAt) == AbsorbAll(limits[..|limits| - n], observedAt).(
              unmatched := AbsorbAll(limits[..|limits| - n], observedAt).unmatched + n)
  {
    if n == 0 {
      assert limits[..|limits|] == limits;
    } else {
      var init := limits[..|limits| - 1];
      UnreadableLimits(init, observedAt, n - 1);
      assert init[..|init| - (n - 1)] == limits[..|limits| - n];
    }
  }
}
