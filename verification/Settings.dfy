/**
 The crash-safe settings commit (internal/providers/zai/settings.go): settings.json is
 replaced under a recovery marker that is first written without and then with the desired
 settings, and recovery rolls an intent forward. Every primitive may fail before, or after,
 its effect became visible, and the machine may crash between any two of them.
 */
module Settings {
  import opened Common
  import opened Store

  /** A duration in a settings file: absent, unparsable or non-positive, or a positive number of nanoseconds. */
  datatype DurationText = Unset | Malformed | Nanos(n: int)

  datatype AccountSetting = AccountSetting(name: string, plan: string, disabled: Option<bool>,
                                           fiveHourCredits: int, weeklyCredits: int)

  datatype SettingsFile = SettingsFile(
    version: int,
    accounts: map<string, AccountSetting>,
    thresholdPercent: Option<int>,
    pollingInterval: DurationText,
    authoritativeMaxAge: DurationText,
    timeout: DurationText)

  /** What reading an absent settings.json yields. */
  const NO_SETTINGS := SettingsFile(0, map[], None, Unset, Unset, Unset)

  /** SHA-256 of the JSON text, taken to be injective. */
  datatype Digest = Digest(of: SettingsFile)

  datatype Marker = Marker(version: int, previous: Digest, desired: Option<SettingsFile>)

  const MARKER_VERSION := 1

  /** The two files of the protocol. */
  datatype Dir = Dir(settings: Option<SettingsFile>, marker: Option<Marker>)

  // ---------------------------------------------------------------- validation

  const DEFAULT_REFRESH := 2 * MINUTE
  const DEFAULT_MAX_AGE := 5 * MINUTE

  function MaxPollInterval(base: int): int
    requires base > 0
  {
    base + base / 2
  }

  predicate InRange(d: DurationText, low: int, high: int) {
    d.Unset? || (d.Nanos? && 0 < low <= d.n <= high)
  }

  function OrElse(d: DurationText, default: int): int {
    if d.Nanos? then d.n else default
  }

  /** The age limit exceeds the polling jitter of the default configuration overlaid with the file. */
  predicate AgeExceedsDefaultJitter(s: SettingsFile)
    requires s.pollingInterval.Nanos? ==> s.pollingInterval.n > 0
  {
    OrElse(s.authoritativeMaxAge, DEFAULT_MAX_AGE) > MaxPollInterval(OrElse(s.pollingInterval, DEFAULT_REFRESH))
  }

  predicate ValidSettings(s: SettingsFile) {
    || s == NO_SETTINGS
    || (&& s.version == 1
        && (s.thresholdPercent.Some? ==> 1 <= s.thresholdPercent.value <= 100)
        && InRange(s.pollingInterval, MINUTE, 3 * MINUTE)
        && (s.authoritativeMaxAge.Unset? || (s.authoritativeMaxAge.Nanos? && s.authoritativeMaxAge.n > 0))
        && AgeExceedsDefaultJitter(s)
        && InRange(s.timeout, SECOND, 30 * SECOND))
  }

  // ---------------------------------------------------------------- reading

  datatype Failure = BadSettings | BadMarker | Mismatch | RollForwardFailed

  function Load(dir: Dir): Result<SettingsFile, Failure> {
    var s := if dir.settings.Some? then dir.settings.value else NO_SETTINGS;
    if ValidSettings(s) then Ok(s) else Err(BadSettings)
  }

  /** The settings a directory stands for: the marker's intent if there is one, else settings.json. */
  function Resolve(dir: Dir): Result<SettingsFile, Failure> {
    if Load(dir).Err? || dir.marker.None? then Load(dir)
    else
      var m, current := dir.marker.value, Digest(Load(dir).value);
      if m.version != MARKER_VERSION then Err(BadMarker)
      else if m.desired.None? then
        if current == m.previous then Load(dir) else Err(Mismatch)
      else if !ValidSettings(m.desired.value) then Err(BadMarker)
      else if current == m.previous || current == Digest(m.desired.value) then Ok(m.desired.value)
      else Err(Mismatch)
  }

  /** Everything recovery may find after a crash. */
  ghost function Outcomes(disk: Disk<Dir>): set<Result<SettingsFile, Failure>> {
    set dir | dir in disk.states :: Resolve(dir)
  }

  /** No crash can leave a directory that recovery refuses. */
  ghost predicate Consistent(disk: Disk<Dir>) {
    disk.Valid() && forall dir | dir in disk.states :: Resolve(dir).Ok?
  }

  /** The live settings.json already holds what the directory stands for; recovery establishes this. */
  ghost predicate Settled(disk: Disk<Dir>) {
    disk.Valid() && Load(disk.Current()).Ok? && Resolve(disk.Current()) == Load(disk.Current())
  }

  // ---------------------------------------------------------------- the protocol, step by step

  /**
   The disks an operation has passed through, at any of which a crash may strike, and whether one
   of its directory syncs has succeeded.
   */
  datatype Log = Log(trace: seq<Disk<Dir>>, synced: bool := false) {

    ghost predicate Valid() {
      |trace| > 0 && forall d | d in trace :: d.Valid()
    }

    function Disk(): (d: Disk<Dir>)
      requires Valid()
      ensures d.Valid()
    {
      trace[|trace| - 1]
    }

    function Dir(): Dir
      requires Valid()
    {
      Disk().Current()
    }

    function PutMarker(marker: Option<Marker>, outcome: WriteOutcome): (log: Log)
      requires Valid()
      ensures log.Valid() && trace <= log.trace
      ensures log.Disk() == Write(Disk(), Dir().(marker := marker), outcome)
      ensures outcome == NotCommitted ==> log == this
    {
      assert trace + [] == trace;
      Log(trace + WriteTrace(Disk(), Dir().(marker := marker), outcome), synced || outcome == Committed)
    }

    function PutSettings(settings: SettingsFile, outcome: WriteOutcome): (log: Log)
      requires Valid()
      ensures log.Valid() && trace <= log.trace
      ensures log.Disk() == Write(Disk(), Dir().(settings := Some(settings)), outcome)
      ensures outcome == NotCommitted ==> log == this
    {
      assert trace + [] == trace;
      Log(trace + WriteTrace(Disk(), Dir().(settings := Some(settings)), outcome), synced || outcome == Committed)
    }

    function Flush(succeeds: bool): (log: Log)
      requires Valid()
      ensures log.Valid() && trace <= log.trace
    {
      if succeeds then Log(trace + [Disk().Sync()], true) else this
    }
  }

  /** How each primitive of one save turns out. */
  datatype SaveFaults = SaveFaults(stage: WriteOutcome, prepare: WriteOutcome, prepareFlush: bool,
                                   commit: WriteOutcome, commitFlush: bool, clear: WriteOutcome)

  datatype SaveResult =
    | Saved            // nil
    | LoadFailed | StageFailed | PrepareFailed
    | PreparePending   // the marker's rename may or may not survive a crash
    | CommitPending    // the marker is durable, settings.json needs recovery
    | ClearFailed      // settings.json is replaced, the marker could not be unlinked

  function Save(start: Log, settings: SettingsFile, faults: SaveFaults): (r: (Log, SaveResult))
    requires start.Valid()
    ensures r.0.Valid() && start.trace <= r.0.trace
  {
    if Load(start.Dir()).Err? then (start, LoadFailed)
    else
      var marker := Marker(MARKER_VERSION, Digest(Load(start.Dir()).value), None);
      var staged := start.PutMarker(Some(marker), faults.stage);
      if faults.stage != Committed then (staged, StageFailed) else Prepare(staged, marker, settings, faults)
  }

  /** Writes the intent into the staged marker. */
  function Prepare(staged: Log, marker: Marker, settings: SettingsFile, faults: SaveFaults): (r: (Log, SaveResult))
    requires staged.Valid()
    ensures r.0.Valid() && staged.trace <= r.0.trace
  {
    var prepared := staged.PutMarker(Some(marker.(desired := Some(settings))), faults.prepare);
    if faults.prepare == NotCommitted then (prepared, PrepareFailed)
    else if faults.prepare == NeedsRecovery && !faults.prepareFlush then
      (prepared, if Load(prepared.Dir()) == Ok(settings) then Saved else PreparePending)
    else
      Commit(prepared.Flush(faults.prepare == NeedsRecovery), settings, faults)
  }

  /** The second half of a save, entered with the intent durable. */
  function Commit(prepared: Log, settings: SettingsFile, faults: SaveFaults): (r: (Log, SaveResult))
    requires prepared.Valid()
    ensures r.0.Valid() && prepared.trace <= r.0.trace
  {
    var committed := prepared.PutSettings(settings, faults.commit);
    if faults.commit == NeedsRecovery && faults.commitFlush then (committed.Flush(true), Saved)
    else if faults.commit != Committed then (committed, CommitPending)
    else
      (committed.PutMarker(None, faults.clear), if faults.clear == NotCommitted then ClearFailed else Saved)
  }

  /** The caller is told that the update is in force but recovery has work to do. */
  predicate ReturnsPending(r: SaveResult) {
    r == PreparePending || r == CommitPending
  }

  predicate ReturnsError(r: SaveResult) {
    r != Saved && !ReturnsPending(r)
  }

  /** The primitives that write the intent leave it durable. */
  predicate IntentDurable(faults: SaveFaults) {
    faults.stage == Committed
      && (faults.prepare == Committed || (faults.prepare == NeedsRecovery && faults.prepareFlush))
  }

  /** The rename of the intent took effect, and neither its sync nor the flush succeeded. */
  predicate IntentInDoubt(faults: SaveFaults) {
    faults.stage == Committed && faults.prepare == NeedsRecovery && !faults.prepareFlush
  }

  /** The primitives that replace settings.json leave it replaced for good. */
  predicate SettingsDurable(faults: SaveFaults) {
    faults.commit == Committed || (faults.commit == NeedsRecovery && faults.commitFlush)
  }

  /**
   What a save returns, by its faults. An intent in doubt is pending unless settings.json held the new
   settings already; a durable one is pending exactly when settings.json may not survive a crash, and
   an error exactly when only the marker could not be unlinked; everything else is an error.
   */
  lemma SaveReturns(start: Log, settings: SettingsFile, faults: SaveFaults)
    requires start.Valid()
    ensures var r := Save(start, settings, faults).1;
      var same := Load(start.Dir()) == Ok(settings);
      if Load(start.Dir()).Err? then r == LoadFailed
      else
        && (ReturnsPending(r) <==>
              (IntentInDoubt(faults) && !same) || (IntentDurable(faults) && !SettingsDurable(faults)))
        && (r == PreparePending <==> IntentInDoubt(faults) && !same)
        && (ReturnsError(r) <==>
              || (!IntentInDoubt(faults) && !IntentDurable(faults))
              || (IntentDurable(faults) && faults.commit == Committed && faults.clear == NotCommitted))
        && (r == ClearFailed <==>
              IntentDurable(faults) && faults.commit == Committed && faults.clear == NotCommitted)
        && (r == StageFailed <==> faults.stage != Committed)
        && (r == Saved <==>
              || (IntentInDoubt(faults) && same)
              || (&& IntentDurable(faults) && SettingsDurable(faults)
                  && (faults.commit == Committed ==> faults.clear != NotCommitted)))
  {
  }

  /** How each primitive of one recovery turns out; `synced` is a directory sync by another writer in between. */
  datatype RecoverFaults = RecoverFaults(roll: WriteOutcome, synced: bool, remove: WriteOutcome)

  function Recover(start: Log, faults: RecoverFaults): (r: (Log, Result<SettingsFile, Failure>))
    requires start.Valid()
    ensures r.0.Valid() && start.trace <= r.0.trace
  {
    var dir := start.Dir();
    if Load(dir).Err? || dir.marker.None? then (start, Load(dir))
    else
      var m, current := dir.marker.value, Digest(Load(dir).value);
      if m.version != MARKER_VERSION then (start, Err(BadMarker))
      else if m.desired.None? then
        if current != m.previous then (start, Err(Mismatch))
        else (start.PutMarker(None, faults.remove), Load(dir))
      else if !ValidSettings(m.desired.value) then (start, Err(BadMarker))
      else if current == m.previous then
        if faults.roll == NotCommitted then (start, Err(RollForwardFailed))
        else
          var rolled := start.PutSettings(m.desired.value, faults.roll).Flush(faults.synced);
          (rolled.PutMarker(None, faults.remove), Ok(m.desired.value))
      else if current == Digest(m.desired.value) then
        (start.PutMarker(None, faults.remove), Ok(m.desired.value))
      else (start, Err(Mismatch))
  }

  // ---------------------------------------------------------------- what each operation does to the outcomes

  /** A crash at any logged disk leads only to outcomes from `allowed`. */
  ghost predicate Confined(log: Log, allowed: set<Result<SettingsFile, Failure>>) {
    forall d | d in log.trace :: Outcomes(d) <= allowed
  }

  lemma ReplaceOutcomes(disk: Disk<Dir>, dir: Dir)
    ensures Outcomes(disk.Replace(dir)) == Outcomes(disk) + {Resolve(dir)}
  {
    var next := disk.Replace(dir);
    forall d | d in disk.states ensures d in next.states {
      var i :| 0 <= i < |disk.states| && disk.states[i] == d;
      assert next.states[i] == d;
    }
    assert next.states[|disk.states|] == dir;
  }

  lemma SingleOutcome(dir: Dir)
    ensures Outcomes(Disk([dir])) == {Resolve(dir)}
  {
    assert [dir][0] == dir;
  }

  lemma CurrentOutcome(disk: Disk<Dir>)
    requires disk.Valid()
    ensures Resolve(disk.Current()) in Outcomes(disk)
  {
    assert disk.Current() in disk.states;
  }

  /** A write adds the new contents' outcome to those possible before, and leaves only it once synced. */
  lemma PutOutcomes(start: Log, end: Log, dir: Dir, outcome: WriteOutcome, allowed: set<Result<SettingsFile, Failure>>)
    requires start.Valid() && Confined(start, allowed) && Resolve(dir) in allowed
    requires end.trace == start.trace + WriteTrace(start.Disk(), dir, outcome)
    ensures end.Valid() && Confined(end, allowed)
    ensures outcome == Committed ==> Outcomes(end.Disk()) == {Resolve(dir)}
    ensures outcome == NeedsRecovery ==> Outcomes(end.Disk()) == Outcomes(start.Disk()) + {Resolve(dir)}
  {
    ReplaceOutcomes(start.Disk(), dir);
    SingleOutcome(dir);
    assert start.Disk() in start.trace;
  }

  lemma FlushOutcomes(start: Log, succeeds: bool, allowed: set<Result<SettingsFile, Failure>>)
    requires start.Valid() && Confined(start, allowed)
    ensures Confined(start.Flush(succeeds), allowed)
    ensures Outcomes(start.Flush(succeeds).Disk()) <= Outcomes(start.Disk())
    ensures succeeds ==> Outcomes(start.Flush(succeeds).Disk()) == {Resolve(start.Dir())}
  {
    SingleOutcome(start.Dir());
    CurrentOutcome(start.Disk());
    assert start.Disk() in start.trace;
  }

  predicate Rejected(r: SaveResult) {
    r == StageFailed || r == PrepareFailed
  }

  predicate LogicallyCommitted(r: SaveResult) {
    r == Saved || r == CommitPending || r == ClearFailed
  }

  /** Once the intent is durable, a crash at any later step recovers to the new settings, whatever fails. */
  lemma CommitOutcomes(prepared: Log, settings: SettingsFile, faults: SaveFaults, previous: SettingsFile,
                       allowed: set<Result<SettingsFile, Failure>>)
    requires prepared.Valid() && Confined(prepared, allowed) && Ok(settings) in allowed
    requires ValidSettings(settings) && ValidSettings(previous)
    requires prepared.Disk().states == [prepared.Dir()] && Load(prepared.Dir()) == Ok(previous)
    requires prepared.Dir().marker == Some(Marker(MARKER_VERSION, Digest(previous), Some(settings)))
    ensures var (end, result) := Commit(prepared, settings, faults);
      LogicallyCommitted(result) && Confined(end, allowed) && Outcomes(end.Disk()) == {Ok(settings)}
  {
    SingleOutcome(prepared.Dir());
    var dir := prepared.Dir().(settings := Some(settings));
    var committed := prepared.PutSettings(settings, faults.commit);
    PutOutcomes(prepared, committed, dir, faults.commit, allowed);
    FlushOutcomes(committed, faults.commit == NeedsRecovery && faults.commitFlush, allowed);
    if faults.commit == Committed {
      PutOutcomes(committed, committed.PutMarker(None, faults.clear), dir.(marker := None), faults.clear, allowed);
    }
  }

  /** From a durable marker without intent: nothing but the old and the new settings can be recovered. */
  lemma PrepareOutcomes(staged: Log, marker: Marker, settings: SettingsFile, faults: SaveFaults, previous: SettingsFile,
                        allowed: set<Result<SettingsFile, Failure>>)
    requires staged.Valid() && Confined(staged, allowed) && Ok(settings) in allowed
    requires ValidSettings(settings) && ValidSettings(previous)
    requires marker == Marker(MARKER_VERSION, Digest(previous), None)
    requires staged.Disk().states == [staged.Dir()] && Load(staged.Dir()) == Ok(previous)
    requires staged.Dir().marker == Some(marker)
    ensures var (end, result) := Prepare(staged, marker, settings, faults);
      && result !in {LoadFailed, StageFailed}
      && Confined(end, allowed)
      && (result == PrepareFailed ==> end == staged)
      && (LogicallyCommitted(result) ==> Outcomes(end.Disk()) == {Ok(settings)})
      && (result == PreparePending ==> Outcomes(end.Disk()) == {Ok(previous), Ok(settings)})
  {
    SingleOutcome(staged.Dir());
    var intent := Some(marker.(desired := Some(settings)));
    var dir := staged.Dir().(marker := intent);
    var prepared := staged.PutMarker(intent, faults.prepare);
    PutOutcomes(staged, prepared, dir, faults.prepare, allowed);
    if faults.prepare == Committed || (faults.prepare == NeedsRecovery && faults.prepareFlush) {
      var durable := prepared.Flush(faults.prepare == NeedsRecovery);
      FlushOutcomes(prepared, faults.prepare == NeedsRecovery, allowed);
      CommitOutcomes(durable, settings, faults, previous, allowed);
    }
  }

  /**
   A save from a settled directory. At no step can a crash lead to anything but an outcome
   that was possible before or the new settings; a rejected save adds nothing; and once the
   intent is known to be durable the new settings are the only outcome left.
   */
  lemma SaveOutcomes(start: Log, settings: SettingsFile, faults: SaveFaults, before: set<Result<SettingsFile, Failure>>)
    requires start.Valid() && Settled(start.Disk()) && Confined(start, before) && ValidSettings(settings)
    ensures var (end, result) := Save(start, settings, faults);
      && result != LoadFailed
      && Confined(end, before + {Ok(settings)})
      && (Rejected(result) ==> Confined(end, before) && Outcomes(end.Disk()) <= Outcomes(start.Disk()))
      && (LogicallyCommitted(result) ==> Outcomes(end.Disk()) == {Ok(settings)})
      && (result == PreparePending ==> Outcomes(end.Disk()) == {Load(start.Dir()), Ok(settings)})
  {
    var previous := Load(start.Dir()).value;
    CurrentOutcome(start.Disk());
    assert start.Disk() in start.trace;
    var marker := Marker(MARKER_VERSION, Digest(previous), None);
    var staged := start.PutMarker(Some(marker), faults.stage);
    PutOutcomes(start, staged, start.Dir().(marker := Some(marker)), faults.stage, before);
    if faults.stage == Committed {
      PrepareOutcomes(staged, marker, settings, faults, previous, before + {Ok(settings)});
    }
  }

  lemma RollForwardOutcomes(start: Log, faults: RecoverFaults, before: set<Result<SettingsFile, Failure>>)
    requires start.Valid() && Confined(start, before)
    requires Resolve(start.Dir()).Ok? && start.Dir().marker.Some? && start.Dir().marker.value.desired.Some?
    requires faults.roll != NotCommitted
    ensures var rolled := start.PutSettings(Resolve(start.Dir()).value, faults.roll).Flush(faults.synced);
      && rolled.Valid() && Confined(rolled, before) && Outcomes(rolled.Disk()) <= Outcomes(start.Disk())
      && rolled.Dir() == start.Dir().(settings := Some(Resolve(start.Dir()).value))
  {
    var desired := Resolve(start.Dir()).value;
    CurrentOutcome(start.Disk());
    assert start.Disk() in start.trace;
    var written := start.PutSettings(desired, faults.roll);
    PutOutcomes(start, written, start.Dir().(settings := Some(desired)), faults.roll, before);
    FlushOutcomes(written, faults.synced, before);
  }

  /** Unlinking a marker whose directory already holds the settings it stands for. */
  lemma RemoveOutcomes(start: Log, outcome: WriteOutcome, before: set<Result<SettingsFile, Failure>>)
    requires start.Valid() && Confined(start, before) && Settled(start.Disk())
    ensures var end := start.PutMarker(None, outcome);
      && Confined(end, before) && Outcomes(end.Disk()) <= Outcomes(start.Disk())
      && Settled(end.Disk()) && Load(end.Dir()) == Load(start.Dir())
  {
    CurrentOutcome(start.Disk());
    assert start.Disk() in start.trace;
    PutOutcomes(start, start.PutMarker(None, outcome), start.Dir().(marker := None), outcome, before);
  }

  /**
   A recovery, from any directory. It reports what the live directory stands for unless its
   roll-forward write never took effect, leaves the directory settled when it succeeds, and
   at no step lets a crash lead to an outcome that was not already possible.
   */
  lemma RecoverOutcomes(start: Log, faults: RecoverFaults, before: set<Result<SettingsFile, Failure>>)
    requires start.Valid() && Confined(start, before)
    ensures var (end, result) := Recover(start, faults);
      && Confined(end, before)
      && Outcomes(end.Disk()) <= Outcomes(start.Disk())
      && (result == Resolve(start.Dir())
            || (result == Err(RollForwardFailed) && faults.roll == NotCommitted && end == start))
      && (result.Ok? ==> Settled(end.Disk()) && Load(end.Dir()) == result)
  {
    var dir := start.Dir();
    if Resolve(dir).Ok? && dir.marker.Some? {
      var m := dir.marker.value;
      if m.desired.None? || Digest(Load(dir).value) != m.previous {
        RemoveOutcomes(start, faults.remove, before);
      } else if faults.roll != NotCommitted {
        RollForwardOutcomes(start, faults, before);
        RemoveOutcomes(start.PutSettings(m.desired.value, faults.roll).Flush(faults.synced), faults.remove, before);
      }
    }
  }
}
