/**
 The persistence protocol of the runtime (internal/providers/zai/runtime.go) as a step machine.
 Usage handlers hold the persistence lock from before they change the snapshot until their
 write is over; polls change the snapshot under the runtime lock alone and write later; commits
 need both locks; shutdown closes admission, waits, and saves once more. Captures carry tickets,
 and a write that is not newer than the last successful one is dropped. A write that fails may
 or may not have replaced state.json, and the process may crash and restart at any point.
 */
module Protocol {
  import opened Common
  import opened Machine
  import opened Store
  import opened Windows
  import opened Quota
  import opened State
  import opened Runtime
  import opened WaitGroups

  datatype World = World(
    clock: Time,
    live: Snapshot,
    stopped: bool,
    closed: bool,
    next: nat,                 // the last ticket handed out
    persisted: nat,            // the highest ticket whose write reported success
    handler: Option<Capture>,  // what the handler that holds the persistence lock will write
    polls: set<Capture>,       // what polls have captured and not yet written
    crew: Crew,
    disk: Disk<Capture>)       // state.json

  datatype Step =
    | Tick(now: Time)
    | UsageStep(record: UsageRecord, now: Time)  // `now` was read before the runtime lock was taken
    | UsageWrite(outcome: WriteOutcome)
    | StartPoller                  // startPollers, still inside the commit
    | CommitDone
    | BeginRefresh
    | GoroutineDone(goroutine: nat)
    | PollStep(goroutine: nat, id: string, generation: nat, startedAt: Time, report: Option<QuotaSnapshot>)
    | PollWrite(capture: Capture, outcome: WriteOutcome)
    | UnblockStep(id: string)
    | ReassessStep(id: string, now: Time)
    | CommitStep(staged: Snapshot)
    | DirectorySync
    | BeginShutdown
    | FinishShutdown(outcome: WriteOutcome, flushed: bool)
    | Restart(persisted: nat, base: Snapshot)

  // ---------------------------------------------------------------- the invariant

  ghost predicate SoundCapture(w: World, c: Capture) {
    c.ticket <= w.next && ValidCapture(c, w.clock)
  }

  /** No content of state.json that a crash can leave is older than the last write that reported success. */
  ghost predicate SoundDisk(w: World) {
    w.disk.Valid() && forall c | c in w.disk.states :: w.persisted <= c.ticket && SoundCapture(w, c)
  }

  ghost predicate SoundQueue(w: World) {
    && (forall c | c in w.polls :: SoundCapture(w, c))
    && (w.handler.Some? ==> w.persisted < w.handler.value.ticket && SoundCapture(w, w.handler.value))
  }

  /** The counters count the handler and the goroutines, and every queued capture has a goroutine that will write it. */
  ghost predicate Manned(w: World) {
    && w.crew.usage == (if w.handler.Some? then 1 else 0) && (w.stopped ==> !w.crew.starting)
    && w.crew.workers == |w.crew.pollers| && w.crew.refreshers == |w.crew.leaders|
    && (forall g | g in w.crew.pollers || g in w.crew.leaders :: g < w.crew.serial)
    && (forall c | c in w.polls ::
          c.ticket in w.crew.owner && w.crew.owner[c.ticket] in w.crew.pollers + w.crew.leaders)
  }

  ghost predicate Good(w: World) {
    && SensibleClock(w.clock) && ValidLive(w.live, w.clock)
    && w.persisted <= w.next && SoundDisk(w) && SoundQueue(w)
    && Manned(w) && (w.closed ==> w.stopped && w.handler.None? && w.polls == {})
  }

  // ---------------------------------------------------------------- steps

  ghost predicate Enabled(w: World, step: Step) {
    match step
    case Tick(now) => w.clock <= now && SensibleClock(now)
    case UsageStep(record, now) =>
      !w.stopped && w.handler.None? && Reading(now, w.clock) && ValidRecord(record, now)
    case UsageWrite(_) => w.handler.Some?
    case StartPoller => w.crew.starting
    case CommitDone => true
    case BeginRefresh => !w.stopped
    case GoroutineDone(goroutine) =>
      forall c | c in w.polls && c.ticket in w.crew.owner :: w.crew.owner[c.ticket] != goroutine
    case PollStep(goroutine, _, _, startedAt, report) =>
      && goroutine in w.crew.pollers + w.crew.leaders
      && Reading(startedAt, w.clock)
      && (report.Some? ==> report.value.observedAt == startedAt && ValidSnapshot(report.value))
    case PollWrite(capture, _) => w.handler.None? && capture in w.polls
    case UnblockStep(id) => !w.stopped && id in w.live.byIdentity
    case ReassessStep(id, now) => id in w.live.byIdentity && Reading(now, w.clock)
    case CommitStep(staged) => !w.crew.starting && !w.stopped && w.handler.None? && ValidLive(staged, w.clock)
    case DirectorySync => true
    case BeginShutdown => !w.crew.starting
    case FinishShutdown(_, _) => w.stopped && !w.closed && w.crew.Idle()
    case Restart(persisted, base) =>
      && persisted < |w.disk.states| && ValidConfig(base.config)
      && Indexed(base.accounts, base.byIdentity) && ValidAccounts(base.byIdentity)
      && forall a | a in base.byAuthId :: base.byAuthId[a] in base.byIdentity
  }

  /** After a failed write the accounts it was captured for carry warnings, if the snapshot is still theirs. */
  function Warned(s: Snapshot, c: Capture): Snapshot {
    if s.generation != c.generation then s
    else s.(quota := map id | id in s.quota :: if id in c.quota then Warn(s.quota[id]) else s.quota[id])
  }

  function Warn(q: QuotaState): QuotaState {
    q.(persistenceWarning := true, deliveryWarning := true)
  }

  /** persistStateLocked: drop a stale capture, else write it; a closed store refuses every write. */
  function AfterWrite(w: World, c: Capture, attempted: WriteOutcome): World {
    var outcome := if w.closed then NotCommitted else attempted;
    if c.ticket <= w.persisted then w
    else if outcome == Committed then w.(disk := Write(w.disk, c, Committed), persisted := c.ticket)
    else w.(disk := Write(w.disk, c, outcome), live := Warned(w.live, c))
  }

  /** A new snapshot and its capture under the next ticket. */
  function Advance(w: World, s: Snapshot): (World, Capture) {
    var c := Captured(s, w.next + 1, w.clock);
    (w.(live := s, next := w.next + 1), c)
  }

  function AfterUsage(w: World, record: UsageRecord, now: Time): World
    requires Good(w) && Enabled(w, UsageStep(record, now))
  {
    if record.authId !in w.live.byAuthId then w
    else
      var id := w.live.byAuthId[record.authId];
      UsageKeeps(w.live, id, record, now, w.clock);
      var (w', c) := Advance(w, Usage(w.live, id, record, now));
      w'.(handler := Some(c), crew := w.crew.Admit())
  }

  /** A poll whose generation is not the live one, or that comes after shutdown began, changes nothing. */
  predicate Cancelled(w: World, id: string, generation: nat) {
    w.stopped || w.live.generation != generation || id !in w.live.quota
  }

  function AfterPoll(w: World, goroutine: nat, id: string, generation: nat, startedAt: Time,
                     report: Option<QuotaSnapshot>): World
    requires Good(w)
  {
    if Cancelled(w, id, generation) then w
    else
      var (w', c) := Advance(w, Poll(w.live, id, report, startedAt));
      w'.(polls := w.polls + {c}, crew := w.crew.(owner := w.crew.owner[c.ticket := goroutine]))
  }

  function AfterShutdown(w: World, outcome: WriteOutcome, flushed: bool): World
    requires w.disk.Valid()
  {
    var (w', c) := Advance(w, w.live);
    var disk := Write(w.disk, c, outcome);
    w'.(disk := if outcome == Committed && flushed then disk.Sync() else disk,
        persisted := if outcome == Committed then c.ticket else w.persisted, closed := true)
  }

  /** Shutdown returns nil. */
  predicate ShutdownSucceeds(step: Step)
    requires step.FinishShutdown?
  {
    step.outcome == Committed && step.flushed
  }

  /** A new process: it counts its tickets from zero. */
  function StartWorld(base: Snapshot, file: Capture, now: Time): World
    requires forall id | id in base.byIdentity :: Sorted(StagedQuota(file, id, now, base.config.retention).events)
  {
    World(now, Stage(base, file, now), false, false, 0, 0, None, {}, NEW_CREW, Disk([file]))
  }

  /** The process crashes, or ends, and another starts on what has persisted of state.json. */
  function AfterRestart(w: World, persisted: nat, base: Snapshot): World
    requires Good(w) && Enabled(w, Restart(persisted, base))
  {
    var file := w.disk.states[persisted].(ticket := 0);
    StageKeeps(base, file, w.clock);
    StartWorld(base, file, w.clock)
  }

  function Apply(w: World, step: Step): World
    requires Good(w) && Enabled(w, step)
  {
    match step
    case Tick(now) => w.(clock := now)
    case UsageStep(record, now) => AfterUsage(w, record, now)
    case UsageWrite(outcome) => AfterWrite(w, w.handler.value, outcome).(handler := None, crew := w.crew.Release())
    case StartPoller => w.(crew := w.crew.StartPoller())
    case CommitDone => w.(crew := w.crew.(starting := false))
    case BeginRefresh => w.(crew := w.crew.StartRefresh())
    case GoroutineDone(goroutine) => w.(crew := w.crew.Done(goroutine))
    case PollStep(goroutine, id, generation, startedAt, report) =>
      AfterPoll(w, goroutine, id, generation, startedAt, report)
    case PollWrite(capture, outcome) => AfterWrite(w, capture, outcome).(polls := w.polls - {capture})
    case UnblockStep(id) => w.(live := Unblock(w.live, id, w.clock))
    case ReassessStep(id, now) => w.(live := Reassess(w.live, id, now))
    case CommitStep(staged) => w.(live := Commit(w.live, staged), crew := w.crew.(starting := true))
    case DirectorySync => w.(disk := w.disk.Sync())
    case BeginShutdown => w.(stopped := true)
    case FinishShutdown(outcome, flushed) => AfterShutdown(w, outcome, flushed)
    case Restart(persisted, base) => AfterRestart(w, persisted, base)
  }

  // ---------------------------------------------------------------- every step keeps the invariant

  lemma CaptureLater(c: Capture, now: Time, later: Time)
    requires ValidCapture(c, now) && now <= later
    ensures ValidCapture(c, later)
  {
  }

  lemma TickGood(w: World, now: Time)
    requires Good(w) && Enabled(w, Tick(now))
    ensures Good(Apply(w, Tick(now)))
  {
    var w' := w.(clock := now);
    forall c | c in w.disk.states || c in w.polls || (w.handler.Some? && c == w.handler.value)
      ensures SoundCapture(w, c) ==> SoundCapture(w', c)
    {
      if SoundCapture(w, c) {
        CaptureLater(c, w.clock, now);
      }
    }
    LiveLater(w.live, w.clock, now);
  }

  lemma LiveLater(s: Snapshot, now: Time, later: Time)
    requires ValidLive(s, now) && now <= later
    ensures ValidLive(s, later)
  {
    forall id | id in s.quota ensures ValidQuota(s.quota[id], later) {
      ValidQuotaLater(s.quota[id], now, later);
    }
  }

  lemma AdvanceSound(w: World, s: Snapshot)
    requires Good(w) && ValidLive(s, w.clock)
    ensures var (w', c) := Advance(w, s);
      SoundCapture(w', c) && w'.persisted < c.ticket && SoundDisk(w') && SoundQueue(w')
  {
    CapturedValid(s, w.next + 1, w.clock);
  }

  lemma WarnedValid(s: Snapshot, c: Capture, clock: Time)
    requires ValidLive(s, clock)
    ensures ValidLive(Warned(s, c), clock)
  {
    var t := Warned(s, c);
    forall id | id in t.quota ensures ValidQuota(t.quota[id], clock) {
      assert ValidQuota(s.quota[id], clock);
    }
  }

  lemma WriteSound(w: World, c: Capture, outcome: WriteOutcome)
    requires SoundDisk(w) && SoundCapture(w, c)
    ensures SoundDisk(AfterWrite(w, c, outcome))
  {
    var w' := AfterWrite(w, c, outcome);
    forall d | d in w'.disk.states ensures w'.persisted <= d.ticket && SoundCapture(w', d) {
      assert d == c || d in w.disk.states;
    }
  }

  lemma UsageGood(w: World, record: UsageRecord, now: Time)
    requires Good(w) && Enabled(w, UsageStep(record, now))
    ensures Good(AfterUsage(w, record, now))
  {
    if record.authId in w.live.byAuthId {
      var id := w.live.byAuthId[record.authId];
      UsageKeeps(w.live, id, record, now, w.clock);
      AdmissionGood(w, Usage(w.live, id, record, now));
    }
  }

  lemma AdmissionGood(w: World, s: Snapshot)
    requires Good(w) && ValidLive(s, w.clock) && !w.stopped && w.handler.None?
    ensures var (w', c) := Advance(w, s);
      Good(w'.(handler := Some(c), crew := w.crew.Admit()))
  {
    AdvanceSound(w, s);
  }

  lemma PollGood(w: World, goroutine: nat, id: string, generation: nat, startedAt: Time, report: Option<QuotaSnapshot>)
    requires Good(w) && Enabled(w, PollStep(goroutine, id, generation, startedAt, report))
    ensures Good(AfterPoll(w, goroutine, id, generation, startedAt, report))
  {
    if !Cancelled(w, id, generation) {
      PollKeeps(w.live, id, report, startedAt, w.clock);
      QueueGood(w, goroutine, Poll(w.live, id, report, startedAt));
    }
  }

  lemma QueueGood(w: World, goroutine: nat, s: Snapshot)
    requires Good(w) && ValidLive(s, w.clock) && !w.closed && goroutine in w.crew.pollers + w.crew.leaders
    ensures var (w', c) := Advance(w, s);
      Good(w'.(polls := w.polls + {c}, crew := w.crew.(owner := w.crew.owner[c.ticket := goroutine])))
  {
    AdvanceSound(w, s);
  }

  /** Goroutines come and go; the counters follow, and whoever leaves has written what it captured. */
  lemma CrewManned(w: World, step: Step)
    requires Manned(w) && Enabled(w, step)
    ensures step.StartPoller? ==> Manned(w.(crew := w.crew.StartPoller()))
    ensures step.BeginRefresh? ==> Manned(w.(crew := w.crew.StartRefresh()))
    ensures step.GoroutineDone? ==>
      && (step.goroutine in w.crew.pollers ==> w.crew.workers > 0)
      && (step.goroutine in w.crew.leaders ==> w.crew.refreshers > 0)
      && Manned(w.(crew := w.crew.Done(step.goroutine)))
  {
    if step.GoroutineDone? {
      var g, crew := step.goroutine, w.crew;
      assert g in crew.pollers ==> |crew.pollers - {g}| == |crew.pollers| - 1;
      assert g in crew.leaders ==> |crew.leaders - {g}| == |crew.leaders| - 1;
    }
  }

  lemma CrewGood(w: World, crew: Crew)
    requires Good(w) && Manned(w.(crew := crew))
    ensures Good(w.(crew := crew))
  {
  }

  lemma CrewStepGood(w: World, step: Step)
    requires Good(w) && Enabled(w, step)
      && (step.StartPoller? || step.CommitDone? || step.BeginRefresh? || step.GoroutineDone?)
    ensures Good(Apply(w, step))
  {
    CrewManned(w, step);
    CrewGood(w, Apply(w, step).crew);
  }

  lemma UsageWriteGood(w: World, outcome: WriteOutcome)
    requires Good(w) && w.handler.Some?
    ensures Good(AfterWrite(w, w.handler.value, outcome).(handler := None, crew := w.crew.Release()))
  {
    AfterWriteGood(w, w.handler.value, outcome);
  }

  lemma PollWriteGood(w: World, capture: Capture, outcome: WriteOutcome)
    requires Good(w) && w.handler.None? && capture in w.polls
    ensures Good(AfterWrite(w, capture, outcome).(polls := w.polls - {capture}))
  {
    AfterWriteGood(w, capture, outcome);
    var w' := AfterWrite(w, capture, outcome);
    assert w'.crew.(usage := 0) == w'.crew && w'.(handler := None) == w';
    DequeueGood(w', capture);
  }

  lemma DequeueGood(w: World, capture: Capture)
    requires Good(w)
    ensures Good(w.(polls := w.polls - {capture}))
  {
  }

  lemma AfterWriteGood(w: World, c: Capture, outcome: WriteOutcome)
    requires Good(w) && SoundCapture(w, c)
    ensures Good(AfterWrite(w, c, outcome).(handler := None, crew := w.crew.(usage := 0)))
  {
    WriteSound(w, c, outcome);
    WarnedValid(w.live, c, w.clock);
  }

  lemma LiveGood(w: World, s: Snapshot)
    requires Good(w) && ValidLive(s, w.clock)
    ensures Good(w.(live := s))
  {
  }

  lemma ShutdownGood(w: World, outcome: WriteOutcome, flushed: bool)
    requires Good(w) && Enabled(w, FinishShutdown(outcome, flushed))
    ensures Good(AfterShutdown(w, outcome, flushed))
  {
    AdvanceSound(w, w.live);
  }

  lemma RestartGood(w: World, persisted: nat, base: Snapshot)
    requires Good(w) && Enabled(w, Restart(persisted, base))
    ensures Good(AfterRestart(w, persisted, base))
  {
    StageKeeps(base, w.disk.states[persisted].(ticket := 0), w.clock);
  }

  /**
   What every step keeps: the ticket order of state.json, the index, and the validity of all that is or
   may be saved.
   */
  lemma StepGood(w: World, step: Step)
    requires Good(w) && Enabled(w, step)
    ensures Good(Apply(w, step))
  {
    match step
    case Tick(now) => TickGood(w, now);
    case UsageStep(record, now) => UsageGood(w, record, now);
    case UsageWrite(outcome) => UsageWriteGood(w, outcome);
    case StartPoller => CrewStepGood(w, step);
    case CommitDone => CrewStepGood(w, step);
    case BeginRefresh => CrewStepGood(w, step);
    case GoroutineDone(_) => CrewStepGood(w, step);
    case PollStep(goroutine, id, generation, startedAt, report) =>
      PollGood(w, goroutine, id, generation, startedAt, report);
    case PollWrite(capture, outcome) => PollWriteGood(w, capture, outcome);
    case UnblockStep(id) =>
      UnblockKeeps(w.live, id, w.clock);
      LiveGood(w, Unblock(w.live, id, w.clock));
    case ReassessStep(id, now) =>
      PutKeeps(w.live, id, w.live.quota[id], w.live.health[id], now, w.clock);
      LiveGood(w, Reassess(w.live, id, now));
    case CommitStep(staged) =>
      CommitKeeps(w.live, staged, w.clock);
      LiveGood(w, Commit(w.live, staged));
      CrewGood(w.(live := Commit(w.live, staged)), w.crew.(starting := true));
    case DirectorySync =>
    case BeginShutdown =>
    case FinishShutdown(outcome, flushed) => ShutdownGood(w, outcome, flushed);
    case Restart(persisted, base) => RestartGood(w, persisted, base);
  }

  /** What a start without state.json reads: nothing is remembered about any account. */
  const NO_FILE := Capture(0, 0, map[], map[])

  /** Every run begins well: from a configuration that parsing accepts, on an empty store. */
  lemma FirstStartGood(base: Snapshot, now: Time)
    requires ValidConfig(base.config) && SensibleClock(now)
    requires Indexed(base.accounts, base.byIdentity) && ValidAccounts(base.byIdentity)
    requires forall a | a in base.byAuthId :: base.byAuthId[a] in base.byIdentity
    ensures forall id | id in base.byIdentity :: Sorted(StagedQuota(NO_FILE, id, now, base.config.retention).events)
    ensures Good(StartWorld(base, NO_FILE, now))
  {
    StageKeeps(base, NO_FILE, now);
  }

  // ---------------------------------------------------------------- runs

  /** A step that is not enabled does not happen. */
  ghost function Next(w: World, step: Step): World {
    if Good(w) && Enabled(w, step) then Apply(w, step) else w
  }

  lemma NextGood(w: World, step: Step)
    requires Good(w)
    ensures Good(Next(w, step))
  {
    if Enabled(w, step) {
      StepGood(w, step);
    }
  }

  lemma RunGood(w: World, steps: seq<Step>)
    requires Good(w)
    ensures Good(Run(Next, w, steps))
  {
    forall w, step: Step | Good(w) ensures Good(Next(w, step)) {
      NextGood(w, step);
    }
    RunKeeps(Next, Good, _ => true, w, steps);
  }
}
