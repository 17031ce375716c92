/**
 What an account's report stands for, over whole runs of the protocol: the records delivered to
 the process since its start, after those that the state.json it started from stood for.
 */
module History {
  import opened Common
  import opened Machine
  import opened Store
  import opened Windows
  import opened Estimator
  import opened Quota
  import opened State
  import opened Runtime
  import opened WaitGroups
  import opened Protocol
  import opened Consumption

  // ---------------------------------------------------------------- what a step does to one account's book

  datatype Change =
    | Same
    | Used(record: UsageRecord, now: Time, retention: int)
    | Compacts(retention: int)

  /** What a step that happens does, other than a start. */
  ghost function ChangeOf(w: World, step: Step, id: string): Change {
    var retention := w.live.config.retention;
    match step
    case UsageStep(record, now) =>
      if record.authId in w.live.byAuthId && w.live.byAuthId[record.authId] == id
      then Used(record, now, retention) else Same
    case UnblockStep(target) => if target == id then Compacts(retention) else Same
    case _ => Same
  }

  ghost predicate Changed(q: QuotaState, change: Change, clock: Time, after: QuotaState) {
    match change
    case Same => BookOf(after) == BookOf(q)
    case Used(r, now, retention) =>
      now <= clock && ValidRecord(r, now) && retention > WEEKLY_WINDOW && after == QuotaAfterUsage(q, r, now, retention)
    case Compacts(retention) => retention > WEEKLY_WINDOW && after == Compacted(q, clock, retention)
  }

  /** The capture is, or may yet be, in state.json. */
  ghost predicate Holds(w: World, c: Capture) {
    c in w.disk.states || c in w.polls || w.handler == Some(c)
  }

  /** A capture is an old one, or a new one of the new state under the next ticket. */
  ghost predicate Fetched(w: World, next: World, c: Capture) {
    Holds(w, c) || (c.ticket == w.next + 1 == next.next && c.quota == next.live.quota)
  }

  /** All that a step other than a start may do to an account and to the captures that hold it. */
  ghost predicate Evolves(w: World, next: World, change: Change, id: string) {
    && w.clock <= next.clock && w.next <= next.next
    && id in w.live.quota && id in next.live.byIdentity && id in next.live.quota
    && Changed(w.live.quota[id], change, w.clock, next.live.quota[id])
    && forall c | Holds(next, c) :: Fetched(w, next, c)
  }

  /** The step leaves the account configured. */
  ghost predicate Keeps(step: Step, id: string) {
    match step
    case CommitStep(staged) => id in staged.byIdentity
    case Restart(_, base) => id in base.byIdentity
    case _ => true
  }

  lemma UsageChanges(s: Snapshot, target: string, r: UsageRecord, now: Time, clock: Time, id: string)
    requires ValidConfig(s.config) && ValidRecord(r, now) && now <= clock && id in s.quota
    requires target in s.quota && target in s.health && target in s.byIdentity
    requires Sorted(QuotaAfterUsage(s.quota[target], r, now, s.config.retention).events)
    ensures var after := Usage(s, target, r, now);
      var change := if target == id then Used(r, now, s.config.retention) else Same;
      after.byIdentity == s.byIdentity && id in after.quota && Changed(s.quota[id], change, clock, after.quota[id])
  {
  }

  /** A new capture of a new snapshot, in a handler's or a poll's hands. */
  lemma AdvanceEvolves(w: World, s: Snapshot, handler: Option<Capture>, polls: set<Capture>, crew: Crew,
                       change: Change, id: string)
    requires id in w.live.quota && id in s.byIdentity && id in s.quota
      && Changed(w.live.quota[id], change, w.clock, s.quota[id])
    requires handler == w.handler || handler == Some(Advance(w, s).1)
    requires forall c | c in polls :: c in w.polls || c == Advance(w, s).1
    ensures Evolves(w, Advance(w, s).0.(handler := handler, polls := polls, crew := crew), change, id)
  {
    var next, c := Advance(w, s).0.(handler := handler, polls := polls, crew := crew), Advance(w, s).1;
    forall d | Holds(next, d) ensures Fetched(w, next, d) {
      assert d == c || Holds(w, d);
    }
  }

  lemma UsageEvolves(w: World, record: UsageRecord, now: Time, id: string)
    requires Good(w) && Enabled(w, UsageStep(record, now)) && id in w.live.byIdentity
    ensures Evolves(w, AfterUsage(w, record, now), ChangeOf(w, UsageStep(record, now), id), id)
  {
    if record.authId in w.live.byAuthId {
      var target := w.live.byAuthId[record.authId];
      UsageKeeps(w.live, target, record, now, w.clock);
      UsageChanges(w.live, target, record, now, w.clock, id);
      var s := Usage(w.live, target, record, now);
      AdvanceEvolves(w, s, Some(Advance(w, s).1), w.polls, w.crew.Admit(), ChangeOf(w, UsageStep(record, now), id), id);
    } else {
      QuietEvolves(w, w, id);
    }
  }

  lemma PollChanges(s: Snapshot, target: string, report: Option<QuotaSnapshot>, startedAt: Time, id: string)
    requires target in s.quota && target in s.health && target in s.byIdentity && Sorted(s.quota[target].events)
    requires id in s.quota && id in s.byIdentity
    ensures var after := Poll(s, target, report, startedAt);
      id in after.byIdentity && id in after.quota && BookOf(after.quota[id]) == BookOf(s.quota[id])
  {
  }

  lemma PollEvolves(w: World, step: Step, id: string)
    requires Good(w) && step.PollStep? && id in w.live.byIdentity
    ensures Evolves(w, AfterPoll(w, step.goroutine, step.id, step.generation, step.startedAt, step.report), Same, id)
  {
    if Cancelled(w, step.id, step.generation) {
      QuietEvolves(w, w, id);
    } else {
      PollChanges(w.live, step.id, step.report, step.startedAt, id);
      var s := Poll(w.live, step.id, step.report, step.startedAt);
      AdvanceEvolves(w, s, w.handler, w.polls + {Advance(w, s).1},
                     w.crew.(owner := w.crew.owner[w.next + 1 := step.goroutine]), Same, id);
    }
  }

  lemma WriteEvolves(w: World, c: Capture, outcome: WriteOutcome, handler: Option<Capture>, polls: set<Capture>,
                     crew: Crew, id: string)
    requires Holds(w, c) && id in w.live.byIdentity && id in w.live.quota
    requires polls <= w.polls && (handler.None? || handler == w.handler)
    ensures Evolves(w, AfterWrite(w, c, outcome).(handler := handler, polls := polls, crew := crew), Same, id)
  {
    var next := AfterWrite(w, c, outcome).(handler := handler, polls := polls, crew := crew);
    forall d | Holds(next, d) ensures Holds(w, d) {
      assert d in next.disk.states ==> d == c || d in w.disk.states;
    }
  }

  lemma UnblockEvolves(w: World, target: string, id: string)
    requires ValidConfig(w.live.config) && target in w.live.quota && target in w.live.health
      && target in w.live.byIdentity
    requires Sorted(w.live.quota[target].events) && id in w.live.byIdentity && id in w.live.quota
    ensures Evolves(w, w.(live := Unblock(w.live, target, w.clock)), ChangeOf(w, UnblockStep(target), id), id)
  {
  }

  lemma ReassessEvolves(w: World, target: string, now: Time, id: string)
    requires target in w.live.quota && target in w.live.health && target in w.live.byIdentity
    requires Sorted(w.live.quota[target].events) && id in w.live.byIdentity && id in w.live.quota
    ensures Evolves(w, w.(live := Reassess(w.live, target, now)), Same, id)
  {
  }

  lemma CommitEvolves(w: World, staged: Snapshot, crew: Crew, id: string)
    requires id in w.live.quota && id in staged.byIdentity && Covered(staged)
    ensures Evolves(w, w.(live := Commit(w.live, staged), crew := crew), Same, id)
  {
  }

  lemma ShutdownEvolves(w: World, outcome: WriteOutcome, flushed: bool, id: string)
    requires w.disk.Valid() && id in w.live.byIdentity && id in w.live.quota
    ensures Evolves(w, AfterShutdown(w, outcome, flushed), Same, id)
  {
    var next := AfterShutdown(w, outcome, flushed);
    var c := Captured(w.live, w.next + 1, w.clock);
    forall d | Holds(next, d) ensures d == c || Holds(w, d) {
      assert d in next.disk.states ==> d == c || d in w.disk.states;
    }
  }

  /** Nothing of the account changes, and no capture appears. */
  lemma QuietEvolves(w: World, next: World, id: string)
    requires id in w.live.byIdentity && id in w.live.quota
    requires next == w.(clock := next.clock, stopped := next.stopped, crew := next.crew, disk := next.disk)
      && w.clock <= next.clock
    requires forall c | c in next.disk.states :: c in w.disk.states
    ensures Evolves(w, next, Same, id)
  {
  }

  ghost predicate Quiet(step: Step) {
    step.Tick? || step.DirectorySync? || step.BeginShutdown? || step.StartPoller? || step.CommitDone?
      || step.BeginRefresh? || step.GoroutineDone?
  }

  lemma QuietStepEvolves(w: World, step: Step, id: string)
    requires Good(w) && Enabled(w, step) && Quiet(step) && id in w.live.byIdentity
    ensures Evolves(w, Apply(w, step), Same, id)
  {
    QuietEvolves(w, Apply(w, step), id);
  }

  lemma StepEvolves(w: World, step: Step, id: string)
    requires Good(w) && Enabled(w, step) && Keeps(step, id) && !step.Restart? && id in w.live.byIdentity
    ensures Evolves(w, Apply(w, step), ChangeOf(w, step, id), id)
  {
    if Quiet(step) {
      QuietStepEvolves(w, step, id);
    } else {
      match step
      case UsageWrite(outcome) => UsageWriteEvolves(w, outcome, id);
      case PollWrite(capture, outcome) => PollWriteEvolves(w, capture, outcome, id);
      case UsageStep(record, now) => UsageEvolves(w, record, now, id);
      case PollStep(_, _, _, _, _) => PollEvolves(w, step, id);
      case UnblockStep(target) => UnblockEvolves(w, target, id);
      case ReassessStep(target, now) => ReassessEvolves(w, target, now, id);
      case CommitStep(staged) => CommitEvolves(w, staged, w.crew.(starting := true), id);
      case FinishShutdown(outcome, flushed) => ShutdownEvolves(w, outcome, flushed, id);
    }
  }

  lemma UsageWriteEvolves(w: World, outcome: WriteOutcome, id: string)
    requires w.handler.Some? && w.crew.usage > 0 && id in w.live.byIdentity && id in w.live.quota
    ensures Evolves(w, AfterWrite(w, w.handler.value, outcome).(handler := None, crew := w.crew.Release()), Same, id)
  {
    WriteEvolves(w, w.handler.value, outcome, None, w.polls, w.crew.Release(), id);
  }

  lemma PollWriteEvolves(w: World, capture: Capture, outcome: WriteOutcome, id: string)
    requires capture in w.polls && id in w.live.byIdentity && id in w.live.quota
    ensures Evolves(w, AfterWrite(w, capture, outcome).(polls := w.polls - {capture}), Same, id)
  {
    WriteEvolves(w, capture, outcome, w.handler, w.polls - {capture}, w.crew, id);
  }

  /** A process that has just started on a file. */
  ghost predicate JustStarted(w: World, file: Capture, id: string, retention: int) {
    && w.handler.None? && w.polls == {} && w.disk.states == [file] && file.ticket == 0
    && id in w.live.byIdentity && id in w.live.quota
    && Changed(InFile(file, id, w.clock), Compacts(retention), w.clock, w.live.quota[id])
  }

  /** What a start reads about an account. */
  function InFile(file: Capture, id: string, now: Time): QuotaState {
    var q := if id in file.quota then file.quota[id] else NO_QUOTA;
    q.(completeSince := if q.completeSince == ZERO_TIME then now else q.completeSince)
  }

  lemma StartShape(base: Snapshot, file: Capture, id: string, now: Time)
    requires id in base.byIdentity && file.ticket == 0 && ValidConfig(base.config)
    requires forall id | id in base.byIdentity :: Sorted(StagedQuota(file, id, now, base.config.retention).events)
    ensures JustStarted(StartWorld(base, file, now), file, id, base.config.retention)
  {
    StageParts(base, file, now, id);
  }

  lemma RestartShape(w: World, persisted: nat, base: Snapshot, id: string)
    requires persisted < |w.disk.states| && id in base.byIdentity && Good(w) && Enabled(w, Restart(persisted, base))
    ensures JustStarted(AfterRestart(w, persisted, base), w.disk.states[persisted].(ticket := 0), id,
                        base.config.retention)
    ensures AfterRestart(w, persisted, base).clock == w.clock
  {
    var file := w.disk.states[persisted].(ticket := 0);
    StageKeeps(base, file, w.clock);
    StartShape(base, file, id, w.clock);
  }

  // ---------------------------------------------------------------- histories

  /** The world, and for one account the history of its live state and of the capture of each ticket. */
  datatype Traced = Traced(world: World, id: string, entries: seq<Entry>, saved: map<nat, seq<Entry>>)

  function SavedAt(saved: map<nat, seq<Entry>>, ticket: nat): seq<Entry> {
    if ticket in saved then saved[ticket] else []
  }

  function EntriesOf(change: Change, clock: Time): seq<Entry> {
    match change
    case Same => []
    case Used(record, now, retention) => UsageEntries(record, now, retention)
    case Compacts(retention) => [Compaction(clock - retention)]
  }

  /** A step adds to the live history, and a capture it takes carries that history under the next ticket. */
  ghost function Extended(t: Traced, next: World, change: Change): Traced {
    var entries := t.entries + EntriesOf(change, t.world.clock);
    Traced(next, t.id, entries, t.saved[t.world.next + 1 := entries])
  }

  /** A start on a file takes up the file's history, and compacts. */
  function StartedOn(w: World, id: string, saved: seq<Entry>, retention: int): Traced {
    Traced(w, id, saved + EntriesOf(Compacts(retention), w.clock), map[0 := saved])
  }

  ghost function TracedNext(t: Traced, step: Step): Traced {
    var w := t.world;
    if !(Good(w) && Enabled(w, step)) then t
    else if step.Restart?
    then StartedOn(Apply(w, step), t.id, SavedAt(t.saved, w.disk.states[step.persisted].ticket),
                   step.base.config.retention)
    else Extended(t, Apply(w, step), ChangeOf(w, step, t.id))
  }

  /** The histories only watch. */
  lemma {:induction false} TracedWorld(t: Traced, steps: seq<Step>)
    ensures Run(TracedNext, t, steps).world == Run(Next, t.world, steps)
    decreases |steps|
  {
    if steps != [] {
      TracedWorld(TracedNext(t, steps[0]), steps[1..]);
    }
  }

  // ---------------------------------------------------------------- what the histories keep

  /** Priced entries, and no compaction within the last week. */
  ghost predicate Proper(entries: seq<Entry>, clock: Time) {
    WellFormed(entries) && Retains(entries, clock - WEEKLY_WINDOW)
  }

  /** The book is that of the history. */
  ghost predicate Reflects(book: Book, entries: seq<Entry>, clock: Time) {
    book == EnterAll(entries) && Proper(entries, clock)
  }

  function BookIn(quota: map<string, QuotaState>, id: string): Book {
    if id in quota then BookOf(quota[id]) else Book([], [])
  }

  ghost predicate Stands(t: Traced, c: Capture) {
    c.ticket <= t.world.next && Reflects(BookIn(c.quota, t.id), SavedAt(t.saved, c.ticket), t.world.clock)
  }

  ghost predicate LiveStands(t: Traced) {
    && t.id in t.world.live.byIdentity && t.id in t.world.live.quota
    && Reflects(BookIn(t.world.live.quota, t.id), t.entries, t.world.clock)
  }

  ghost predicate Books(t: Traced) {
    LiveStands(t) && forall c | Holds(t.world, c) :: Stands(t, c)
  }

  lemma ProperAppend(entries: seq<Entry>, entry: Entry, clock: Time)
    requires Proper(entries, clock) && ValidEntry(entry) && entry.cutoff <= clock - WEEKLY_WINDOW
    ensures Proper(entries + [entry], clock)
  {
  }

  lemma ReflectsLater(book: Book, entries: seq<Entry>, clock: Time, later: Time)
    requires Reflects(book, entries, clock) && clock <= later
    ensures Reflects(book, entries, later)
  {
  }

  lemma UsedReflects(q: QuotaState, r: UsageRecord, now: Time, retention: int, clock: Time, entries: seq<Entry>)
    requires now <= clock && ValidRecord(r, now) && retention > WEEKLY_WINDOW && Reflects(BookOf(q), entries, clock)
    ensures Reflects(BookOf(QuotaAfterUsage(q, r, now, retention)), entries + UsageEntries(r, now, retention), clock)
  {
    var more := UsageEntries(r, now, retention);
    UsageBook(q, r, now, retention, entries);
    if more == [] {
      assert entries + more == entries;
    } else {
      assert more == [more[0]];
      ProperAppend(entries, more[0], clock);
    }
  }

  lemma CompactReflects(q: QuotaState, retention: int, clock: Time, entries: seq<Entry>)
    requires retention > WEEKLY_WINDOW && Reflects(BookOf(q), entries, clock)
    ensures Reflects(BookOf(Compacted(q, clock, retention)), entries + [Compaction(clock - retention)], clock)
  {
    CompactedBook(q, clock, retention, entries);
    ProperAppend(entries, Compaction(clock - retention), clock);
  }

  lemma ChangeReflects(q: QuotaState, change: Change, clock: Time, after: QuotaState, entries: seq<Entry>)
    requires Changed(q, change, clock, after) && Reflects(BookOf(q), entries, clock)
    ensures Reflects(BookOf(after), entries + EntriesOf(change, clock), clock)
  {
    match change
    case Same => assert entries + EntriesOf(change, clock) == entries;
    case Used(r, now, retention) => UsedReflects(q, r, now, retention, clock, entries);
    case Compacts(retention) => CompactReflects(q, retention, clock, entries);
  }

  lemma EvolvesLive(t: Traced, next: World, change: Change)
    requires LiveStands(t) && Evolves(t.world, next, change, t.id)
    ensures LiveStands(Extended(t, next, change))
  {
    var w, entries := t.world, t.entries + EntriesOf(change, t.world.clock);
    ChangeReflects(w.live.quota[t.id], change, w.clock, next.live.quota[t.id], t.entries);
    ReflectsLater(BookOf(next.live.quota[t.id]), entries, w.clock, next.clock);
  }

  /** The histories of the captures, the next ticket's being the live one. */
  lemma EvolvesCaptures(t: Traced, t': Traced, change: Change)
    requires Books(t) && Evolves(t.world, t'.world, change, t.id) && t'.id == t.id
    requires LiveStands(t') && t'.saved == t.saved[t.world.next + 1 := t'.entries]
    ensures Books(t')
  {
    var w, next := t.world, t'.world;
    forall c | Holds(next, c) ensures Stands(t', c) {
      assert Fetched(w, next, c);
      if Holds(w, c) {
        ReflectsLater(BookIn(c.quota, t.id), SavedAt(t.saved, c.ticket), w.clock, next.clock);
      }
    }
  }

  /** What every step other than a start keeps. */
  lemma EvolvesBooks(t: Traced, next: World, change: Change)
    requires Books(t) && Evolves(t.world, next, change, t.id)
    ensures Books(Extended(t, next, change))
  {
    EvolvesLive(t, next, change);
    EvolvesCaptures(t, Extended(t, next, change), change);
  }

  /** A start reads the book back and compacts it. */
  lemma StartLive(w: World, file: Capture, id: string, retention: int, saved: seq<Entry>)
    requires JustStarted(w, file, id, retention) && Reflects(BookIn(file.quota, id), saved, w.clock)
    ensures LiveStands(StartedOn(w, id, saved, retention))
  {
    ChangeReflects(InFile(file, id, w.clock), Compacts(retention), w.clock, w.live.quota[id], saved);
  }

  lemma FileBooks(t: Traced, file: Capture)
    requires t.world.handler.None? && t.world.polls == {} && t.world.disk.states == [file] && file.ticket == 0
    requires LiveStands(t) && Reflects(BookIn(file.quota, t.id), SavedAt(t.saved, 0), t.world.clock)
    ensures Books(t)
  {
    forall c | Holds(t.world, c) ensures Stands(t, c) {
      assert c == file;
    }
  }

  lemma StartBooks(w: World, file: Capture, id: string, retention: int, saved: seq<Entry>)
    requires JustStarted(w, file, id, retention) && Reflects(BookIn(file.quota, id), saved, w.clock)
    ensures Books(StartedOn(w, id, saved, retention))
  {
    StartLive(w, file, id, retention, saved);
    FileBooks(StartedOn(w, id, saved, retention), file);
  }

  lemma RestartBooks(t: Traced, persisted: nat, base: Snapshot)
    requires persisted < |t.world.disk.states| && t.id in base.byIdentity && Books(t)
    requires Good(t.world) && Enabled(t.world, Restart(persisted, base))
    ensures Books(StartedOn(AfterRestart(t.world, persisted, base), t.id,
                            SavedAt(t.saved, t.world.disk.states[persisted].ticket), base.config.retention))
  {
    var c := t.world.disk.states[persisted];
    assert Holds(t.world, c);
    RestartShape(t.world, persisted, base, t.id);
    StartBooks(AfterRestart(t.world, persisted, base), c.(ticket := 0), t.id, base.config.retention,
               SavedAt(t.saved, c.ticket));
  }

  /** Every step of the protocol keeps every book in agreement with its history. */
  lemma NextBooks(t: Traced, step: Step)
    requires Good(t.world) && Books(t) && Keeps(step, t.id)
    ensures Good(TracedNext(t, step).world) && Books(TracedNext(t, step)) && TracedNext(t, step).id == t.id
  {
    if Enabled(t.world, step) {
      StepGood(t.world, step);
      if step.Restart? {
        RestartBooks(t, step.persisted, step.base);
      } else {
        StepEvolves(t.world, step, t.id);
        EvolvesBooks(t, Apply(t.world, step), ChangeOf(t.world, step, t.id));
      }
    }
  }

  // ---------------------------------------------------------------- over whole runs

  lemma RunBooks(t: Traced, steps: seq<Step>)
    requires Good(t.world) && Books(t) && forall i | 0 <= i < |steps| :: Keeps(steps[i], t.id)
    ensures var end := Run(TracedNext, t, steps);
      Good(end.world) && Books(end) && end.id == t.id
  {
    var inv := (x: Traced) => Good(x.world) && Books(x) && x.id == t.id;
    var admissible := (s: Step) => Keeps(s, t.id);
    forall x, s | inv(x) && admissible(s) ensures inv(TracedNext(x, s)) {
      NextBooks(x, s);
    }
    RunKeeps(TracedNext, inv, admissible, t, steps);
  }

  /** What a live book reports, for the windows that the estimator stands in for. */
  lemma BookReports(q: QuotaState, a: Account, c: Config, now: Time, entries: seq<Entry>)
    requires Reflects(BookOf(q), entries, now) && Prompt(entries)
    ensures Sorted(q.events)
    ensures FiveHourEstimated(q, c, now) ==>
      FiveHourView(q, a, c, now).consumed == Min(MAX_INT64, Ideal(entries, now - FIVE_HOUR_WINDOW, now))
    ensures !Fresh(q, c, now) ==>
      WeeklyView(q, a, c, now).consumed == Min(MAX_INT64, Ideal(entries, now - WEEKLY_WINDOW, now))
  {
    BoundedRefinesUnbounded(entries, now, FIVE_HOUR_WINDOW);
    BoundedRefinesUnbounded(entries, now, WEEKLY_WINDOW);
  }

  /** The report of the live state is that of its history. */
  ghost predicate Reports(t: Traced)
    requires t.id in t.world.live.quota && t.id in t.world.live.byIdentity && Sorted(t.world.live.quota[t.id].events)
  {
    var q, a, c, now := t.world.live.quota[t.id], t.world.live.byIdentity[t.id], t.world.live.config, t.world.clock;
    && (FiveHourEstimated(q, c, now) ==>
          FiveHourView(q, a, c, now).consumed == Min(MAX_INT64, Ideal(t.entries, now - FIVE_HOUR_WINDOW, now)))
    && (!Fresh(q, c, now) ==>
          WeeklyView(q, a, c, now).consumed == Min(MAX_INT64, Ideal(t.entries, now - WEEKLY_WINDOW, now)))
  }

  lemma LiveReports(t: Traced)
    requires LiveStands(t) && Prompt(t.entries)
    ensures Sorted(t.world.live.quota[t.id].events) && Reports(t)
  {
    BookReports(t.world.live.quota[t.id], t.world.live.byIdentity[t.id], t.world.live.config, t.world.clock, t.entries);
  }

  /**
   Over every run, through commits, failed writes, crashes and restarts that keep the account
   configured: whenever the estimator stands in for a window, what is reported is the saturated
   sum of the prices of the distinct records dated inside it, out of all that were delivered since
   the start and all that the file it started from stood for, as long as none of them was
   redelivered after 4096 newer hashes.
   */
  lemma ReportedConsumption(t: Traced, steps: seq<Step>)
    requires Good(t.world) && Books(t) && forall i | 0 <= i < |steps| :: Keeps(steps[i], t.id)
    requires Prompt(Run(TracedNext, t, steps).entries)
    ensures var end := Run(TracedNext, t, steps);
      && end.world == Run(Next, t.world, steps) && end.id == t.id
      && LiveStands(end) && Sorted(end.world.live.quota[t.id].events) && Reports(end)
  {
    var end := Run(TracedNext, t, steps);
    assert LiveStands(end) && end.id == t.id by {
      RunBooks(t, steps);
    }
    assert end.world == Run(Next, t.world, steps) by {
      TracedWorld(t, steps);
    }
    LiveReports(end);
  }

  /** Every run may begin with a first start, where nothing has been delivered yet. */
  lemma FirstBooks(base: Snapshot, id: string, now: Time)
    requires ValidConfig(base.config) && SensibleClock(now) && id in base.byIdentity
    requires Indexed(base.accounts, base.byIdentity) && ValidAccounts(base.byIdentity)
    requires forall a | a in base.byAuthId :: base.byAuthId[a] in base.byIdentity
    ensures forall id | id in base.byIdentity :: Sorted(StagedQuota(NO_FILE, id, now, base.config.retention).events)
    ensures var t := StartedOn(StartWorld(base, NO_FILE, now), id, [], base.config.retention);
      Good(t.world) && Books(t)
  {
    FirstStartGood(base, now);
    StartShape(base, NO_FILE, id, now);
    StartBooks(StartWorld(base, NO_FILE, now), NO_FILE, id, base.config.retention, []);
  }
}
