/**
 Whole runs of the settings protocol: updates (which always recover before they save),
 recoveries during reconfigure, directory syncs by other writers, and crashes at any step.
 */
module SettingsRuns {
  import opened Common
  import opened Machine
  import opened Store
  import opened Settings

  datatype Operation =
    | Recovery(recovery: RecoverFaults)
    | Update(recovery: RecoverFaults, settings: SettingsFile, save: SaveFaults)
    | DirectorySync

  datatype Event = Completes(op: Operation) | Crashes(op: Operation, step: nat, persisted: nat)

  /**
   The store, the saves attempted so far, which of them was the last to commit, and whether a save
   ended with its preparation pending and no directory sync has succeeded since.
   */
  datatype World = World(disk: Disk<Dir>, attempts: seq<SettingsFile>, committed: nat, pending: bool)

  /** The disks an operation passes through, and how its save ended if it got that far. */
  function Perform(disk: Disk<Dir>, op: Operation): (r: (Log, Option<SaveResult>))
    requires disk.Valid()
    ensures r.0.Valid()
  {
    var start := Log([disk]);
    match op
    case DirectorySync => (start.Flush(true), None)
    case Recovery(faults) => (Recover(start, faults).0, None)
    case Update(recovery, settings, save) =>
      var (recovered, found) := Recover(start, recovery);
      if found.Err? then (recovered, None)
      else var (end, result) := Save(recovered, settings, save); (end, Some(result))
  }

  /** The crash strikes after the update's recovery is over, so its save has begun. */
  predicate SaveBegun(disk: Disk<Dir>, op: Operation, step: nat)
    requires disk.Valid()
  {
    op.Update? && step >= |Recover(Log([disk]), op.recovery).0.trace|
  }

  ghost predicate Enabled(w: World, e: Event) {
    && w.disk.Valid()
    && (e.op.Update? ==> ValidSettings(e.op.settings))
    && (e.Crashes? ==>
          var trace := Perform(w.disk, e.op).0.trace;
          e.step < |trace| && e.persisted < |trace[e.step].states|)
  }

  /**
   A save that was rejected counts as no attempt at all; one cut short by a crash does count.
   An event that is not enabled does not happen.
   */
  ghost function Next(w: World, e: Event): World {
    if !Enabled(w, e) then w
    else
      var (log, result) := Perform(w.disk, e.op);
      match e
      case Crashes(op, step, persisted) =>
        World(log.trace[step].Crash(persisted),
              if SaveBegun(w.disk, op, step) then w.attempts + [op.settings] else w.attempts,
              w.committed, false)
      case Completes(op) =>
        var pending := result == Some(PreparePending) || (w.pending && !log.synced);
        if result.None? || Rejected(result.value) then w.(disk := log.Disk(), pending := pending)
        else World(log.Disk(), w.attempts + [op.settings],
                   if LogicallyCommitted(result.value) then |w.attempts| else w.committed, pending)
  }

  /** The last committed save and everything attempted after it. */
  ghost function Recent(w: World): set<Result<SettingsFile, Failure>> {
    set i | w.committed <= i < |w.attempts| :: Ok(w.attempts[i])
  }

  ghost predicate Safe(w: World) {
    w.disk.Valid() && w.committed < |w.attempts| && Outcomes(w.disk) <= Recent(w)
  }

  function FirstUse(settings: Option<SettingsFile>): World
    requires settings.Some? ==> ValidSettings(settings.value)
  {
    World(Disk([Dir(settings, None)]), [Load(Dir(settings, None)).value], 0, false)
  }

  /** Every run begins safe: with readable settings, or none at all, and no marker. */
  lemma FirstUseSafe(settings: Option<SettingsFile>)
    requires settings.Some? ==> ValidSettings(settings.value)
    ensures Safe(FirstUse(settings))
  {
    var w := FirstUse(settings);
    SingleOutcome(Dir(settings, None));
    assert Ok(w.attempts[0]) in Recent(w);
  }

  lemma AttemptAdds(w: World, settings: SettingsFile)
    requires w.committed <= |w.attempts|
    ensures Recent(w.(attempts := w.attempts + [settings])) == Recent(w) + {Ok(settings)}
  {
    var next := w.(attempts := w.attempts + [settings]);
    forall i | w.committed <= i < |w.attempts| ensures Ok(w.attempts[i]) in Recent(next) {
      assert next.attempts[i] == w.attempts[i];
    }
    assert next.attempts[|w.attempts|] == settings;
  }

  /** What every operation keeps: see SaveOutcomes and RecoverOutcomes for the single operations. */
  lemma PerformOutcomes(w: World, op: Operation)
    requires Safe(w) && (op.Update? ==> ValidSettings(op.settings))
    ensures var (log, result) := Perform(w.disk, op);
      && Confined(log, Recent(w) + if op.Update? then {Ok(op.settings)} else {})
      && (op.Update? ==> forall step | 0 <= step < |log.trace| && !SaveBegun(w.disk, op, step) ::
            Outcomes(log.trace[step]) <= Recent(w))
      && (result.None? || Rejected(result.value) ==> Outcomes(log.Disk()) <= Recent(w))
      && (result.Some? && LogicallyCommitted(result.value) ==> Outcomes(log.Disk()) == {Ok(op.settings)})
  {
    var start := Log([w.disk]);
    match op
    case DirectorySync =>
      FlushOutcomes(start, true, Recent(w));
    case Recovery(faults) =>
      RecoverOutcomes(start, faults, Recent(w));
    case Update(recovery, settings, save) =>
      RecoverOutcomes(start, recovery, Recent(w));
      var (recovered, found) := Recover(start, recovery);
      if found.Ok? {
        SaveOutcomes(recovered, settings, save, Recent(w));
        var (log, result) := Save(recovered, settings, save);
        forall step | 0 <= step < |log.trace| && !SaveBegun(w.disk, op, step)
          ensures Outcomes(log.trace[step]) <= Recent(w)
        {
          assert log.trace[step] == recovered.trace[step];
        }
      }
  }

  lemma CrashOutcome(disk: Disk<Dir>, persisted: nat)
    requires persisted < |disk.states|
    ensures Outcomes(disk.Crash(persisted)) <= Outcomes(disk)
  {
    SingleOutcome(disk.states[persisted]);
  }

  lemma StepSafe(w: World, e: Event)
    requires Safe(w)
    ensures Safe(Next(w, e))
  {
    if !Enabled(w, e) {
      return;
    }
    PerformOutcomes(w, e.op);
    var (log, result) := Perform(w.disk, e.op);
    if e.Crashes? {
      CrashOutcome(log.trace[e.step], e.persisted);
      if SaveBegun(w.disk, e.op, e.step) {
        AttemptAdds(w, e.op.settings);
      }
      assert log.trace[e.step] in log.trace;
    } else if result.Some? && !Rejected(result.value) {
      AttemptAdds(w, e.op.settings);
      assert log.Disk() in log.trace;
      if LogicallyCommitted(result.value) {
        AttemptAdds(w.(committed := |w.attempts|), e.op.settings);
      }
    }
  }

  /** Over every run the directory stands for the last committed save or for a later attempt. */
  lemma RunSafe(w: World, events: seq<Event>)
    requires Safe(w)
    ensures Safe(Run(Next, w, events))
  {
    forall w, e: Event | Safe(w) ensures Safe(Next(w, e)) {
      StepSafe(w, e);
    }
    RunKeeps(Next, Safe, _ => true, w, events);
  }

  /**
   The protocol's promise. After any run, and after a further crash that persists any prefix
   of the unsynced operations, recovery returns the settings of the last save that committed
   or of one attempted later; neither "marker does not match" nor any other refusal of the
   directory occurs, only a roll-forward write that never took effect.
   */
  lemma RecoveryAfterAnyRun(w: World, events: seq<Event>, persisted: nat, faults: RecoverFaults)
    requires Safe(w) && persisted < |Run(Next, w, events).disk.states|
    ensures var end := Run(Next, w, events);
      var found := Recover(Log([end.disk.Crash(persisted)]), faults).1;
      || (found == Err(RollForwardFailed) && faults.roll == NotCommitted)
      || exists i :: end.committed <= i < |end.attempts| && found == Ok(end.attempts[i])
  {
    RunSafe(w, events);
    var end := Run(Next, w, events);
    CrashOutcome(end.disk, persisted);
    var log := Log([end.disk.Crash(persisted)]);
    RecoverOutcomes(log, faults, Recent(end));
    CurrentOutcome(log.Disk());
  }

  // ---------------------------------------------------------------- running recovery again

  /**
   Without a crash a second recovery returns what the first one did. After a crash anywhere in
   the first one, it returns something that was already possible before the first one ran; so
   when only one outcome was possible, recovery is idempotent under crashes too.
   */
  lemma RecoveryIdempotent(disk: Disk<Dir>, first: RecoverFaults, second: RecoverFaults, step: nat, persisted: nat)
    requires Consistent(disk) && second.roll != NotCommitted
    requires step < |Recover(Log([disk]), first).0.trace|
    requires persisted < |Recover(Log([disk]), first).0.trace[step].states|
    ensures var (log, found) := Recover(Log([disk]), first);
      var again := Recover(Log([log.Disk()]), second).1;
      var afterCrash := Recover(Log([log.trace[step].Crash(persisted)]), second).1;
      && (found.Ok? ==> again == found)
      && afterCrash in Outcomes(disk)
      && (Outcomes(disk) == {Resolve(disk.Current())} ==> again == afterCrash == Resolve(disk.Current()))
  {
    RecoverOutcomes(Log([disk]), first, Outcomes(disk));
    var (log, found) := Recover(Log([disk]), first);
    assert log.trace[step] in log.trace && log.Disk() in log.trace;
    RecoverOutcomes(Log([log.Disk()]), second, Outcomes(disk));
    CurrentOutcome(log.Disk());
    CrashOutcome(log.trace[step], persisted);
    var crashed := Log([log.trace[step].Crash(persisted)]);
    CurrentOutcome(crashed.Disk());
    RecoverOutcomes(crashed, second, Outcomes(disk));
  }

  // ---------------------------------------------------------------- settings the store cannot read back

  /**
   A save that returns nil can be read back after every crash if and only if the settings
   pass the check that reading applies.
   */
  lemma SavedReadableIffValid(start: Log, settings: SettingsFile, faults: SaveFaults)
    requires start.Valid() && Settled(start.Disk())
    requires Save(start, settings, faults).1 == Saved
    ensures Consistent(Save(start, settings, faults).0.Disk()) <==> ValidSettings(settings)
  {
    if ValidSettings(settings) {
      SavedReadable(start, settings, faults);
    } else {
      SavedUnreadable(start, settings, faults);
    }
  }

  lemma SavedUnreadable(start: Log, settings: SettingsFile, faults: SaveFaults)
    requires start.Valid() && !ValidSettings(settings)
    requires Save(start, settings, faults).1 == Saved
    ensures !Consistent(Save(start, settings, faults).0.Disk())
  {
    var end := Save(start, settings, faults).0;
    assert end.Dir() in end.Disk().states;
    assert Load(end.Dir()).Err?;
  }

  lemma SavedReadable(start: Log, settings: SettingsFile, faults: SaveFaults)
    requires start.Valid() && Settled(start.Disk()) && ValidSettings(settings)
    requires Save(start, settings, faults).1 == Saved
    ensures Consistent(Save(start, settings, faults).0.Disk())
  {
    var end := Save(start, settings, faults).0;
    var before := set d, dir | d in start.trace && dir in d.states :: Resolve(dir);
    SaveOutcomes(start, settings, faults, before);
    forall dir | dir in end.Disk().states ensures Resolve(dir).Ok? {
      assert Resolve(dir) in Outcomes(end.Disk());
    }
  }

  /** The fields of the live configuration that an update checks its request against. */
  datatype LiveConfig = LiveConfig(refresh: int, maxAge: int)

  /** The configuration part of an update; the account part of the settings is arbitrary. */
  datatype Request = Request(thresholdPercent: Option<int>, pollingInterval: DurationText,
                             authoritativeMaxAge: DurationText, timeout: DurationText)

  function Overlay(request: DurationText, stored: DurationText): DurationText {
    if request.Nanos? then request else stored
  }

  /** The settings an update hands to the save, or None when it refuses the request itself. */
  function Accept(live: LiveConfig, stored: SettingsFile, accounts: map<string, AccountSetting>,
                  r: Request): Option<SettingsFile>
    requires live.refresh > 0
  {
    if || (r.thresholdPercent.Some? && !(1 <= r.thresholdPercent.value <= 100))
       || !InRange(r.pollingInterval, MINUTE, 3 * MINUTE)
       || r.authoritativeMaxAge.Malformed? || (r.authoritativeMaxAge.Nanos? && r.authoritativeMaxAge.n <= 0)
       || OrElse(r.authoritativeMaxAge, live.maxAge) <= MaxPollInterval(OrElse(r.pollingInterval, live.refresh))
       || !InRange(r.timeout, SECOND, 30 * SECOND)
    then None
    else Some(SettingsFile(
      if stored.version == 0 then 1 else stored.version, accounts,
      if r.thresholdPercent.Some? then r.thresholdPercent else stored.thresholdPercent,
      Overlay(r.pollingInterval, stored.pollingInterval),
      Overlay(r.authoritativeMaxAge, stored.authoritativeMaxAge),
      Overlay(r.timeout, stored.timeout)))
  }

  predicate Overrides(request: DurationText, stored: DurationText, next: DurationText) {
    (request.Nanos? && next == request) || (request.Unset? && next == stored)
  }

  /** What an accepted request names is stored, what it does not name stays, and saying it again changes nothing. */
  lemma AcceptedOverrides(live: LiveConfig, stored: SettingsFile, accounts: map<string, AccountSetting>, r: Request)
    requires live.refresh > 0 && Accept(live, stored, accounts, r).Some?
    ensures var next := Accept(live, stored, accounts, r).value;
      && Overrides(r.pollingInterval, stored.pollingInterval, next.pollingInterval)
      && Overrides(r.authoritativeMaxAge, stored.authoritativeMaxAge, next.authoritativeMaxAge)
      && Overrides(r.timeout, stored.timeout, next.timeout)
      && (r.thresholdPercent.Some? ==> next.thresholdPercent == r.thresholdPercent)
      && (r.thresholdPercent.None? ==> next.thresholdPercent == stored.thresholdPercent)
      && next.accounts == accounts && Accept(live, next, accounts, r) == Some(next)
  {
  }

  /**
   An accepted update leaves settings the store can read back exactly when its age limit also
   exceeds the polling jitter of the default configuration; the live configuration that the
   update itself checks against does not matter.
   */
  lemma AcceptedReadableIff(live: LiveConfig, stored: SettingsFile, accounts: map<string, AccountSetting>, r: Request)
    requires live.refresh > 0 && ValidSettings(stored) && Accept(live, stored, accounts, r).Some?
    ensures var next := Accept(live, stored, accounts, r).value;
      && (next.pollingInterval.Nanos? ==> next.pollingInterval.n > 0)
      && (ValidSettings(next) <==> AgeExceedsDefaultJitter(next))
  {
    assert Accept(live, stored, accounts, r).value != NO_SETTINGS;
  }

  /**
   With a one-minute refresh interval in the host configuration, a two-minute age limit is
   accepted and saved, and from then on no recovery can read the store.
   */
  lemma AcceptedUpdateCanWedgeStore(accounts: map<string, AccountSetting>, faults: RecoverFaults)
    ensures var live := LiveConfig(MINUTE, 5 * MINUTE);
      var next := Accept(live, NO_SETTINGS, accounts, Request(None, Unset, Nanos(2 * MINUTE), Unset));
      var clean := SaveFaults(Committed, Committed, true, Committed, true, Committed);
      && next.Some?
      && var (log, result) := Save(Log([Disk([Dir(None, None)])]), next.value, clean);
         result == Saved && Recover(Log([log.Disk()]), faults).1 == Err(BadSettings)
  {
    var next := Accept(LiveConfig(MINUTE, 5 * MINUTE), NO_SETTINGS, accounts,
                       Request(None, Unset, Nanos(2 * MINUTE), Unset)).value;
    assert !AgeExceedsDefaultJitter(next);
    var clean := SaveFaults(Committed, Committed, true, Committed, true, Committed);
    var log := Save(Log([Disk([Dir(None, None)])]), next, clean).0;
    assert log.Dir() == Dir(Some(next), None);
  }
}
