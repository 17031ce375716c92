/**
 The secure store's directory under crashes (internal/securestore/securestore_linux.go).

 A write fsyncs its temporary file, renames it over the target and then fsyncs the
 directory; a removal unlinks and then fsyncs the directory. Renames and unlinks persist
 in order, so the directory a crash leaves behind is one of the contents it went through
 since the last directory sync that succeeded.
 */
module Store {
  import opened Common

  datatype WriteOutcome = NotCommitted | Committed | NeedsRecovery

  /** The contents since the last successful directory sync, oldest first; the last one is live. */
  datatype Disk<T> = Disk(states: seq<T>) {

    ghost predicate Valid() {
      |states| > 0
    }

    function Current(): T
      requires Valid()
    {
      states[|states| - 1]
    }

    /** A rename or an unlink: the new contents are live but not yet durable. */
    function Replace(contents: T): Disk<T> {
      Disk(states + [contents])
    }

    function Sync(): Disk<T>
      requires Valid()
    {
      Disk([Current()])
    }

    /** The machine stops and comes back with the contents that had persisted. */
    function Crash(persisted: nat): Disk<T>
      requires persisted < |states|
    {
      Disk([states[persisted]])
    }
  }

  /** Every disk a rename (or unlink) followed by a directory sync passes through. */
  function WriteTrace<T>(disk: Disk<T>, contents: T, outcome: WriteOutcome): (trace: seq<Disk<T>>)
    ensures forall d | d in trace :: d.Valid()
  {
    match outcome
    case NotCommitted => []
    case NeedsRecovery => [disk.Replace(contents)]
    case Committed => [disk.Replace(contents), disk.Replace(contents).Sync()]
  }

  /** The disk a write leaves behind. */
  function Write<T>(disk: Disk<T>, contents: T, outcome: WriteOutcome): Disk<T>
  {
    match outcome
    case NotCommitted => disk
    case NeedsRecovery => disk.Replace(contents)
    case Committed => Disk([contents])
  }

  /** How the system calls of one write turn out; the first failure ends it. */
  datatype WriteCalls = WriteCalls(targetUsable: bool, tempCreated: bool, written: bool, synced: bool, closed: bool,
                                   targetStillUsable: bool, renamed: bool, directorySynced: bool)

  /** How the system calls of one removal turn out. */
  datatype RemoveCalls = RemoveCalls(unlinked: bool, directorySynced: bool)

  /** The opened directory, for one file of it: `None` is an absent file. */
  class Directory<T> {
    var disk: Disk<Option<T>>

    constructor ()
      ensures disk == Disk([None])
    {
      disk := Disk([None]);
    }

    /** writeJSONAt: nothing before the rename shows, and only the directory sync makes the rename durable. */
    method WriteJSON(contents: T, calls: WriteCalls) returns (outcome: WriteOutcome)
      requires disk.Valid()
      modifies this
      ensures disk.Valid() && disk == Write(old(disk), Some(contents), outcome)
      ensures outcome == Committed ==> disk.states == [Some(contents)]
      ensures outcome != NotCommitted ==> disk.Current() == Some(contents)
      ensures outcome == NeedsRecovery <==>
        calls == WriteCalls(true, true, true, true, true, true, true, false)
    {
      if !calls.targetUsable || !calls.tempCreated || !calls.written || !calls.synced || !calls.closed {
        return NotCommitted;
      }
      if !calls.targetStillUsable || !calls.renamed {
        return NotCommitted;
      }
      disk := disk.Replace(Some(contents));
      if !calls.directorySynced {
        return NeedsRecovery;
      }
      disk := disk.Sync();
      outcome := Committed;
    }

    /** removeJSONAt: an absent file is removed already, without a sync. */
    method RemoveJSON(calls: RemoveCalls) returns (outcome: WriteOutcome)
      requires disk.Valid()
      modifies this
      ensures disk.Valid() && (outcome != NotCommitted ==> disk.Current() == None)
      ensures old(disk.Current()).Some? ==> disk == Write(old(disk), None, outcome)
      ensures old(disk.Current()).None? ==> disk == old(disk) && outcome == Committed
    {
      if disk.Current().None? {
        return Committed;
      }
      if !calls.unlinked {
        return NotCommitted;
      }
      disk := disk.Replace(None);
      if !calls.directorySynced {
        return NeedsRecovery;
      }
      disk := disk.Sync();
      outcome := Committed;
    }
  }
}
