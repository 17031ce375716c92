/**
 When a crash can still change what recovery returns: exactly while a save has ended with its
 preparation pending and no directory sync has succeeded since.
 */
module SettingsPending {
  import opened Common
  import opened Machine
  import opened Store
  import opened Settings
  import opened SettingsRuns

  /** The crash strikes at some step of a first recovery, and the second one runs on what persisted. */
  ghost predicate CrashPoint(disk: Disk<Dir>, first: RecoverFaults, step: nat, persisted: nat)
    requires disk.Valid()
  {
    var trace := Recover(Log([disk]), first).0.trace;
    step < |trace| && persisted < |trace[step].states|
  }

  /** Whatever a first recovery did before a crash, a second one returns the live settings. */
  ghost predicate CrashStable(disk: Disk<Dir>)
    requires disk.Valid()
  {
    forall first: RecoverFaults, second: RecoverFaults, step: nat, persisted: nat
      {:trigger CrashPoint(disk, first, step, persisted), second.roll} ::
      CrashPoint(disk, first, step, persisted) && second.roll != NotCommitted ==>
      Recover(Log([Recover(Log([disk]), first).0.trace[step].Crash(persisted)]), second).1 == Resolve(disk.Current())
  }

  /** A crashed and repeated recovery always returns the live settings exactly when nothing else could be recovered. */
  lemma RecoveryCrashStableIff(disk: Disk<Dir>)
    requires Consistent(disk)
    ensures CrashStable(disk) <==> OneOutcome(disk)
  {
    CurrentOutcome(disk);
    if Outcomes(disk) == {Resolve(disk.Current())} {
      forall first: RecoverFaults, second: RecoverFaults, step: nat, persisted: nat
        | CrashPoint(disk, first, step, persisted) && second.roll != NotCommitted
        ensures Recover(Log([Recover(Log([disk]), first).0.trace[step].Crash(persisted)]), second).1
          == Resolve(disk.Current())
      {
        RecoveryIdempotent(disk, first, second, step, persisted);
      }
    } else {
      var dir :| dir in disk.states && Resolve(dir) != Resolve(disk.Current());
      var persisted :| 0 <= persisted < |disk.states| && disk.states[persisted] == dir;
      var clean := RecoverFaults(Committed, true, Committed);
      assert Recover(Log([disk]), clean).0.trace[0] == disk;
      assert CrashPoint(disk, clean, 0, persisted) && clean.roll != NotCommitted;
      RecoverOutcomes(Log([disk.Crash(persisted)]), clean, Outcomes(disk.Crash(persisted)));
    }
  }

  /**
   The one-outcome hypothesis is needed. After a save ended in PreparePending, recovery rolls
   the update forward, but if neither of its own syncs succeeds a crash still returns to the
   old settings.
   */
  lemma PendingUpdateCanVanish(earlier: SettingsFile, later: SettingsFile)
    requires ValidSettings(earlier) && ValidSettings(later) && earlier != later
    ensures var disk := Disk([Dir(Some(earlier), None)]);
      var faults := SaveFaults(Committed, NeedsRecovery, false, Committed, true, Committed);
      var (saved, result) := Save(Log([disk]), later, faults);
      var unsynced := RecoverFaults(NeedsRecovery, false, NeedsRecovery);
      var (log, found) := Recover(Log([saved.Disk()]), unsynced);
      && result == PreparePending && found == Ok(later)
      && |log.Disk().states| > 0 && Recover(Log([log.Disk().Crash(0)]), unsynced).1 == Ok(earlier)
  {
    var disk := Disk([Dir(Some(earlier), None)]);
    var faults := SaveFaults(Committed, NeedsRecovery, false, Committed, true, Committed);
    var (saved, result) := Save(Log([disk]), later, faults);
    var m := Marker(MARKER_VERSION, Digest(earlier), None);
    assert saved.Disk().states == [Dir(Some(earlier), Some(m)), Dir(Some(earlier), Some(m.(desired := Some(later))))];
  }

  // ---------------------------------------------------------------- one outcome, or several

  ghost predicate OneOutcome(disk: Disk<Dir>)
    requires disk.Valid()
  {
    Outcomes(disk) == {Resolve(disk.Current())}
  }

  /**
   What an operation that began at `first` has done: a sync left one outcome, and without one nothing
   is forgotten.
   */
  ghost predicate Follows(first: Disk<Dir>, log: Log) {
    && log.Valid()
    && (log.synced ==> OneOutcome(log.Disk()))
    && (!log.synced ==> first.states <= log.Disk().states)
  }

  /** A write that does not change what the directory stands for. */
  lemma PutFollows(first: Disk<Dir>, log: Log, next: Log, dir: Dir, outcome: WriteOutcome)
    requires Follows(first, log) && Resolve(dir) == Resolve(log.Dir())
    requires next == Log(log.trace + WriteTrace(log.Disk(), dir, outcome), log.synced || outcome == Committed)
    ensures Follows(first, next) && Resolve(next.Dir()) == Resolve(log.Dir())
  {
    ReplaceOutcomes(log.Disk(), dir);
    SingleOutcome(dir);
    if outcome == NotCommitted {
      assert next.trace == log.trace;
    }
  }

  lemma FlushFollows(first: Disk<Dir>, log: Log, succeeds: bool)
    requires Follows(first, log)
    ensures Follows(first, log.Flush(succeeds)) && log.Flush(succeeds).Dir() == log.Dir()
  {
    SingleOutcome(log.Dir());
  }

  lemma RecoverFollows(first: Disk<Dir>, log: Log, faults: RecoverFaults)
    requires Follows(first, log) && Resolve(log.Dir()).Ok?
    ensures Follows(first, Recover(log, faults).0)
  {
    var dir := log.Dir();
    if dir.marker.Some? {
      var m := dir.marker.value;
      if m.desired.Some? && Digest(Load(dir).value) == m.previous && faults.roll != NotCommitted {
        var rolledDir := dir.(settings := m.desired);
        var rolled := log.PutSettings(m.desired.value, faults.roll);
        PutFollows(first, log, rolled, rolledDir, faults.roll);
        FlushFollows(first, rolled, faults.synced);
        var flushed := rolled.Flush(faults.synced);
        PutFollows(first, flushed, flushed.PutMarker(None, faults.remove), rolledDir.(marker := None), faults.remove);
      } else if m.desired.None? || Digest(Load(dir).value) != m.previous {
        PutFollows(first, log, log.PutMarker(None, faults.remove), dir.(marker := None), faults.remove);
      }
    }
  }

  /** A save leaves several outcomes exactly when its preparation is pending. */
  lemma SaveFollows(first: Disk<Dir>, log: Log, settings: SettingsFile, faults: SaveFaults)
    requires Follows(first, log) && Settled(log.Disk()) && ValidSettings(settings)
    ensures var (end, result) := Save(log, settings, faults);
      && (Rejected(result) ==> Follows(first, end))
      && (!Rejected(result) ==> end.synced && (OneOutcome(end.Disk()) <==> result != PreparePending))
  {
    var marker := Marker(MARKER_VERSION, Digest(Load(log.Dir()).value), None);
    var staged := log.PutMarker(Some(marker), faults.stage);
    PutFollows(first, log, staged, log.Dir().(marker := Some(marker)), faults.stage);
    if faults.stage == Committed {
      PrepareKeepsSync(staged, marker, settings, faults);
      SaveOutcomeCount(log, settings, faults);
    }
  }

  lemma SaveOutcomeCount(log: Log, settings: SettingsFile, faults: SaveFaults)
    requires log.Valid() && Settled(log.Disk()) && ValidSettings(settings)
    ensures var (end, result) := Save(log, settings, faults);
      && (LogicallyCommitted(result) ==> OneOutcome(end.Disk()))
      && (result == PreparePending && Load(log.Dir()) != Ok(settings) ==> !OneOutcome(end.Disk()))
  {
    var before := set d, dir | d in log.trace && dir in d.states :: Resolve(dir);
    SaveOutcomes(log, settings, faults, before);
    CurrentOutcome(Save(log, settings, faults).0.Disk());
  }

  lemma PrepareKeepsSync(staged: Log, marker: Marker, settings: SettingsFile, faults: SaveFaults)
    requires staged.Valid() && staged.synced
    ensures var (end, result) := Prepare(staged, marker, settings, faults);
      && end.synced && (result == PrepareFailed ==> end == staged)
      && (result == PreparePending ==> Load(staged.Dir()) != Ok(settings))
  {
  }

  // ---------------------------------------------------------------- over whole runs

  /** The flag tells how many outcomes there are. */
  ghost predicate Tracked(w: World) {
    Safe(w) && (OneOutcome(w.disk) <==> !w.pending)
  }

  lemma PerformTracked(w: World, op: Operation)
    requires Tracked(w) && (op.Update? ==> ValidSettings(op.settings))
    ensures var (log, result) := Perform(w.disk, op);
      && (result.None? || Rejected(result.value) ==> Follows(w.disk, log))
      && (result.Some? && !Rejected(result.value) ==>
            log.synced && (OneOutcome(log.Disk()) <==> result.value != PreparePending))
  {
    var start := Log([w.disk]);
    CurrentOutcome(w.disk);
    match op
    case DirectorySync =>
      FlushFollows(w.disk, start, true);
    case Recovery(faults) =>
      RecoverFollows(w.disk, start, faults);
    case Update(recovery, settings, save) =>
      RecoverFollows(w.disk, start, recovery);
      RecoverOutcomes(start, recovery, Outcomes(w.disk));
      var (recovered, found) := Recover(start, recovery);
      if found.Ok? {
        SaveFollows(w.disk, recovered, settings, save);
      }
  }

  /** Without a sync the old outcomes stay possible; with one, or from a single one, only one is left. */
  lemma FollowsTracked(w: World, log: Log)
    requires Tracked(w) && Follows(w.disk, log) && Outcomes(log.Disk()) <= Outcomes(w.disk)
    ensures OneOutcome(log.Disk()) <==> !(w.pending && !log.synced)
  {
    CurrentOutcome(log.Disk());
    CurrentOutcome(w.disk);
    if !log.synced {
      forall o | o in Outcomes(w.disk) ensures o in Outcomes(log.Disk()) {
        var dir :| dir in w.disk.states && Resolve(dir) == o;
        var i :| 0 <= i < |w.disk.states| && w.disk.states[i] == dir;
        assert log.Disk().states[i] == dir;
      }
      assert Outcomes(log.Disk()) == Outcomes(w.disk);
    }
  }

  lemma StepTracked(w: World, e: Event)
    requires Tracked(w)
    ensures Tracked(Next(w, e))
  {
    StepSafe(w, e);
    if Enabled(w, e) {
      PerformTracked(w, e.op);
      var (log, result) := Perform(w.disk, e.op);
      if e.Crashes? {
        SingleOutcome(log.trace[e.step].states[e.persisted]);
      } else if result.None? || Rejected(result.value) {
        PerformShrinks(w, e.op);
        FollowsTracked(w, log);
      }
    }
  }

  /** An operation that commits nothing adds no outcome. */
  lemma PerformShrinks(w: World, op: Operation)
    requires Safe(w) && (op.Update? ==> ValidSettings(op.settings))
    ensures var (log, result) := Perform(w.disk, op);
      result.None? || Rejected(result.value) ==> Outcomes(log.Disk()) <= Outcomes(w.disk)
  {
    var start := Log([w.disk]);
    match op
    case DirectorySync =>
      FlushOutcomes(start, true, Outcomes(w.disk));
    case Recovery(faults) =>
      RecoverOutcomes(start, faults, Outcomes(w.disk));
    case Update(recovery, settings, save) =>
      RecoverOutcomes(start, recovery, Outcomes(w.disk));
      var (recovered, found) := Recover(start, recovery);
      if found.Ok? {
        SaveOutcomes(recovered, settings, save, Outcomes(w.disk));
      }
  }

  lemma SafeConsistent(w: World)
    requires Safe(w)
    ensures Consistent(w.disk)
  {
    forall dir | dir in w.disk.states ensures Resolve(dir).Ok? {
      assert Resolve(dir) in Outcomes(w.disk);
    }
  }

  /**
   Over every run: crashed and repeated recoveries all return the settings the directory stands
   for if and only if no preparation is pending.
   */
  lemma StableIffNotPending(settings: Option<SettingsFile>, events: seq<Event>)
    requires settings.Some? ==> ValidSettings(settings.value)
    ensures var end := Run(Next, FirstUse(settings), events);
      end.disk.Valid() && (CrashStable(end.disk) <==> !end.pending)
  {
    FirstUseSafe(settings);
    SingleOutcome(Dir(settings, None));
    forall w, e: Event | Tracked(w) ensures Tracked(Next(w, e)) {
      StepTracked(w, e);
    }
    RunKeeps(Next, Tracked, _ => true, FirstUse(settings), events);
    SafeConsistent(Run(Next, FirstUse(settings), events));
    RecoveryCrashStableIff(Run(Next, FirstUse(settings), events).disk);
  }
}
