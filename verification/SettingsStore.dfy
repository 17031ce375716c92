/** saveSettings and recoverSettings as they run, one primitive after the other, on the store they change. */
module SettingsStore {
  import opened Common
  import opened Store
  import opened Settings

  class SecureStore {
    var disk: Disk<Dir>
    ghost var log: Log  // every disk so far, the points at which a crash may strike

    ghost predicate Valid()
      reads this
    {
      log.Valid() && disk == log.Disk()
    }

    constructor (contents: Dir)
      ensures Valid() && disk == Disk([contents]) && log == Log([disk])
    {
      disk := Disk([contents]);
      log := Log([Disk([contents])]);
    }

    method WriteMarker(marker: Option<Marker>, outcome: WriteOutcome)
      requires Valid()
      modifies this
      ensures Valid() && log == old(log).PutMarker(marker, outcome)
    {
      log := log.PutMarker(marker, outcome);
      disk := Write(disk, disk.Current().(marker := marker), outcome);
    }

    method WriteSettings(settings: SettingsFile, outcome: WriteOutcome)
      requires Valid()
      modifies this
      ensures Valid() && log == old(log).PutSettings(settings, outcome)
    {
      log := log.PutSettings(settings, outcome);
      disk := Write(disk, disk.Current().(settings := Some(settings)), outcome);
    }

    method Flush(succeeds: bool)
      requires Valid()
      modifies this
      ensures Valid() && log == old(log).Flush(succeeds)
    {
      if succeeds {
        log := log.Flush(true);
        disk := disk.Sync();
      }
    }

    method SaveSettings(settings: SettingsFile, faults: SaveFaults) returns (result: SaveResult)
      requires Valid()
      modifies this
      ensures Valid() && (log, result) == Save(old(log), settings, faults)
    {
      var previous := Load(disk.Current());
      if previous.Err? {
        return LoadFailed;
      }
      var marker := Marker(MARKER_VERSION, Digest(previous.value), None);
      WriteMarker(Some(marker), faults.stage);
      if faults.stage != Committed {
        return StageFailed;
      }
      marker := marker.(desired := Some(settings));
      WriteMarker(Some(marker), faults.prepare);
      if faults.prepare != Committed {
        if faults.prepare != NeedsRecovery {
          return PrepareFailed;
        }
        Flush(faults.prepareFlush);
        if !faults.prepareFlush {
          var current := Load(disk.Current());
          if current.Ok? && Digest(current.value) == Digest(settings) {
            return Saved;
          }
          return PreparePending;
        }
      }
      WriteSettings(settings, faults.commit);
      if faults.commit != Committed {
        if faults.commit == NeedsRecovery {
          Flush(faults.commitFlush);
          if faults.commitFlush {
            return Saved;
          }
        }
        return CommitPending;
      }
      WriteMarker(None, faults.clear);
      result := if faults.clear == NotCommitted then ClearFailed else Saved;
    }

    method RecoverSettings(faults: RecoverFaults) returns (result: Result<SettingsFile, Failure>)
      requires Valid()
      modifies this
      ensures Valid() && (log, result) == Recover(old(log), faults)
      ensures Outcomes(disk) <= old(Outcomes(disk))
      ensures result.Ok? ==> result == old(Resolve(disk.Current())) && Settled(disk) && Load(disk.Current()) == result
    {
      ghost var before := set d, dir | d in log.trace && dir in d.states :: Resolve(dir);
      RecoverOutcomes(log, faults, before);
      var loaded := Load(disk.Current());
      if loaded.Err? || disk.Current().marker.None? {
        return loaded;
      }
      var marker := disk.Current().marker.value;
      if marker.version != MARKER_VERSION {
        return Err(BadMarker);
      }
      var current := Digest(loaded.value);
      if marker.desired.None? {
        if current != marker.previous {
          return Err(Mismatch);
        }
        WriteMarker(None, faults.remove);
        return loaded;
      }
      var desired := marker.desired.value;
      if !ValidSettings(desired) {
        return Err(BadMarker);
      }
      if current == marker.previous {
        WriteSettings(desired, faults.roll);
        if faults.roll == NotCommitted {
          return Err(RollForwardFailed);
        }
        Flush(faults.synced);
      } else if current != Digest(desired) {
        return Err(Mismatch);
      }
      WriteMarker(None, faults.remove);
      result := Ok(desired);
    }
  }
}
