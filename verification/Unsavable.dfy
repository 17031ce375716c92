/**
 What a report with an unbounded diagnostic does to the state: no save passes the validator again
 until a later poll of the same account replaces the report.
 */
module Unsavable {
  import opened Common
  import opened Machine
  import opened Windows
  import opened Quota
  import opened Runtime

  /** The runtime's operations on the snapshot, for an account or with a staged snapshot. */
  datatype Operation =
    | Use(id: string, record: UsageRecord, now: Time)
    | Ask(id: string, report: Option<QuotaSnapshot>, startedAt: Time)
    | Free(id: string, now: Time)
    | Look(id: string, now: Time)
    | Publish(staged: Snapshot)

  ghost predicate Possible(s: Snapshot, op: Operation) {
    match op
    case Use(id, record, now) =>
      id in s.byIdentity && id in s.health && id in s.quota
        && Sorted(QuotaAfterUsage(s.quota[id], record, now, s.config.retention).events)
    case Ask(id, _, _) => id in s.byIdentity && id in s.health && id in s.quota && Sorted(s.quota[id].events)
    case Free(id, _) => id in s.byIdentity && id in s.health && id in s.quota && Sorted(s.quota[id].events)
    case Look(id, _) => id in s.byIdentity && id in s.health && id in s.quota && Sorted(s.quota[id].events)
    case Publish(_) => true
  }

  ghost function Next(s: Snapshot, op: Operation): Snapshot {
    if !Possible(s, op) then s
    else match op
      case Use(id, record, now) => Usage(s, id, record, now)
      case Ask(id, report, startedAt) => Poll(s, id, report, startedAt)
      case Free(id, now) => Unblock(s, id, now)
      case Look(id, now) => Reassess(s, id, now)
      case Publish(staged) => Commit(s, staged)
  }

  /** The operation neither brings a new report for the account nor drops the account. */
  ghost predicate Leaves(op: Operation, id: string) {
    match op
    case Ask(target, report, _) => target != id || report.None?
    case Publish(staged) => id in staged.quota
    case _ => true
  }

  ghost predicate Blocked(s: Snapshot, id: string) {
    id in s.quota && s.quota[id].authoritative.Some? && !ValidSnapshot(s.quota[id].authoritative.value)
  }

  lemma NextBlocked(s: Snapshot, op: Operation, id: string)
    requires Blocked(s, id) && Leaves(op, id)
    ensures Blocked(Next(s, op), id)
  {
  }

  /** No capture of a blocked snapshot, under any ticket and at any time, passes the validator. */
  lemma BlockedRefused(s: Snapshot, id: string, ticket: nat, now: Time)
    requires Blocked(s, id)
    ensures !ValidCapture(Captured(s, ticket, now), now)
  {
    assert id in Captured(s, ticket, now).quota;
  }

  /**
   After the report every save is refused, whatever usage, polls of other accounts, failed polls,
   unblocks and commits follow, until a poll of the account brings another report.
   */
  lemma ReportBlocksSaves(s: Snapshot, id: string, observedAt: Time, ops: seq<Operation>, ticket: nat, now: Time)
    requires id in s.byIdentity && id in s.health && id in s.quota && Sorted(s.quota[id].events)
    requires forall i | 0 <= i < |ops| :: Leaves(ops[i], id)
    ensures Parse(UnreadableReport(), Unnamed, observedAt).Ok?
    ensures var polled := Poll(s, id, Some(Parse(UnreadableReport(), Unnamed, observedAt).value), observedAt);
      !ValidCapture(Captured(Run(Next, polled, ops), ticket, now), now)
  {
    UnboundedDiagnostic(observedAt);
    var polled := Poll(s, id, Some(Parse(UnreadableReport(), Unnamed, observedAt).value), observedAt);
    var inv := (x: Snapshot) => Blocked(x, id);
    var leaves := (op: Operation) => Leaves(op, id);
    forall x, op | inv(x) && leaves(op) ensures inv(Next(x, op)) {
      NextBlocked(x, op, id);
    }
    RunKeeps(Next, inv, leaves, polled, ops);
    BlockedRefused(Run(Next, polled, ops), id, ticket, now);
  }
}
