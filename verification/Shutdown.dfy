/**
 Shutdown (internal/providers/zai/runtime.go): it closes admission, waits until its wait groups are
 at zero, saves once more and closes the store.
 */
module Shutdown {
  import opened Common
  import opened Machine
  import opened Store
  import opened Windows
  import opened Health
  import opened State
  import opened Runtime
  import opened WaitGroups
  import opened Protocol
  import opened Durability

  // ---------------------------------------------------------------- waiting

  ghost predicate AtMost(a: Crew, b: Crew) {
    a.usage <= b.usage && a.workers <= b.workers && a.refreshers <= b.refreshers
  }

  /** Counters at zero mean that no handler and no captured poll is left to write anything. */
  lemma NoneLeft(w: World)
    requires Good(w) && w.crew.Idle()
    ensures w.handler.None? && w.polls == {}
  {
    assert w.crew.pollers + w.crew.leaders == {};
  }

  /** Once admission is closed no counter rises, so waiting for zero is final. */
  lemma NextCountsDown(w: World, step: Step)
    requires Good(w) && w.stopped && !step.Restart?
    ensures var next := Next(w, step);
      Good(next) && next.stopped && AtMost(next.crew, w.crew)
  {
    NextGood(w, step);
  }

  lemma RunCountsDown(w: World, steps: seq<Step>)
    requires Good(w) && w.stopped && forall i | 0 <= i < |steps| :: !steps[i].Restart?
    ensures var end := Run(Next, w, steps);
      Good(end) && end.stopped && AtMost(end.crew, w.crew)
  {
    var inv := (x: World) => Good(x) && x.stopped && AtMost(x.crew, w.crew);
    var admissible := (s: Step) => !s.Restart?;
    forall x, s | inv(x) && admissible(s) ensures inv(Next(x, s)) {
      NextCountsDown(x, s);
    }
    RunKeeps(Next, inv, admissible, w, steps);
  }

  // ---------------------------------------------------------------- closed to changes

  /** The same but for the two warnings that a failed write leaves. */
  predicate SameButWarned(q: QuotaState, after: QuotaState) {
    after == q.(persistenceWarning := after.persistenceWarning, deliveryWarning := after.deliveryWarning)
  }

  /** The same configuration, records and deadlines; only warnings and the derived capacity fields may differ. */
  ghost predicate Frozen(s: Snapshot, t: Snapshot) {
    && t == s.(quota := t.quota, health := t.health)
    && t.quota.Keys == s.quota.Keys && t.health.Keys == s.health.Keys
    && (forall id | id in s.quota :: SameButWarned(s.quota[id], t.quota[id]))
    && (forall id | id in s.health :: SameDeadlines(s.health[id], t.health[id]))
  }

  lemma WriteFreezes(w: World, c: Capture, outcome: WriteOutcome)
    ensures Frozen(w.live, AfterWrite(w, c, outcome).live)
  {
  }

  lemma ReassessFreezes(s: Snapshot, id: string, now: Time)
    requires Complete(s) && id in s.byIdentity
    ensures Frozen(s, Reassess(s, id, now))
  {
  }

  lemma SameFrozen(s: Snapshot)
    ensures Frozen(s, s)
  {
  }

  lemma OtherStep(w: World, step: Step)
    requires Good(w) && w.stopped && Enabled(w, step)
      && !step.Restart? && !step.UsageWrite? && !step.PollWrite? && !step.ReassessStep?
    ensures Apply(w, step).live == w.live
  {
  }

  lemma StoppedStep(w: World, step: Step)
    requires Good(w) && w.stopped && Enabled(w, step) && !step.Restart?
    ensures Frozen(w.live, Apply(w, step).live)
  {
    if step.UsageWrite? {
      WriteFreezes(w, w.handler.value, step.outcome);
    } else if step.PollWrite? {
      WriteFreezes(w, step.capture, step.outcome);
    } else if step.ReassessStep? {
      ReassessFreezes(w.live, step.id, step.now);
    } else {
      OtherStep(w, step);
      SameFrozen(w.live);
    }
  }

  lemma StoppedNext(w: World, step: Step)
    requires Good(w) && w.stopped && !step.Restart?
    ensures Good(Next(w, step)) && Next(w, step).stopped && Frozen(w.live, Next(w, step).live)
  {
    NextCountsDown(w, step);
    if Enabled(w, step) {
      StoppedStep(w, step);
    } else {
      SameFrozen(w.live);
    }
  }

  lemma FrozenStays(s: Snapshot, t: Snapshot, u: Snapshot)
    requires Frozen(s, t) && Frozen(t, u)
    ensures Frozen(s, u)
  {
    forall id | id in s.quota ensures SameButWarned(s.quota[id], u.quota[id]) {
      assert SameButWarned(s.quota[id], t.quota[id]) && SameButWarned(t.quota[id], u.quota[id]);
    }
    forall id | id in s.health ensures SameDeadlines(s.health[id], u.health[id]) {
      assert SameDeadlines(s.health[id], t.health[id]) && SameDeadlines(t.health[id], u.health[id]);
    }
  }

  /** From the closing of admission on, no poll, record, unblock or commit changes what is saved, warnings apart. */
  lemma StoppedRunFrozen(w: World, steps: seq<Step>)
    requires Good(w) && w.stopped && forall i | 0 <= i < |steps| :: !steps[i].Restart?
    ensures Frozen(w.live, Run(Next, w, steps).live)
  {
    var inv := (x: World) => Good(x) && x.stopped && Frozen(w.live, x.live);
    var admissible := (s: Step) => !s.Restart?;
    SameFrozen(w.live);
    forall x, s | inv(x) && admissible(s) ensures inv(Next(x, s)) {
      StoppedNext(x, s);
      FrozenStays(w.live, x.live, Next(x, s).live);
    }
    RunKeeps(Next, inv, admissible, w, steps);
  }

  // ---------------------------------------------------------------- the last save

  /** Quota and every deadline are the same; only the derived capacity fields may differ. */
  ghost predicate SameRecords(s: Snapshot, t: Snapshot) {
    && s.quota == t.quota && s.health.Keys == t.health.Keys
    && forall id | id in s.health :: SameDeadlines(s.health[id], t.health[id])
  }

  predicate SameDeadlines(h: HealthState, k: HealthState) {
    h == k.(capacityExhausted := h.capacityExhausted, capacityResetAt := h.capacityResetAt)
  }

  function Unexpired(until: Time, clock: Time): Time {
    if until > clock then until else ZERO_TIME
  }

  /** The file's health is exactly the unexpired suspensions and exhaustions. */
  ghost predicate ExactDeadlines(file: map<string, PersistedHealth>, live: map<string, HealthState>, clock: Time) {
    forall id ::
      && (id in file <==> id in live && (live[id].suspendedUntil > clock || live[id].exhaustedUntil > clock))
      && (id in file ==>
            && file[id].suspendedUntil == Unexpired(live[id].suspendedUntil, clock)
            && file[id].exhaustedUntil == Unexpired(live[id].exhaustedUntil, clock))
  }

  /** What the end of a shutdown that returns nil does. */
  lemma LastSave(w: World, finish: Step)
    requires Good(w) && finish.FinishShutdown? && Enabled(w, finish) && ShutdownSucceeds(finish)
    ensures var end := Next(w, finish);
      && Good(end) && end.closed && end.live == w.live
      && end.disk.states == [Captured(w.live, w.next + 1, w.clock)]
  {
    NextGood(w, finish);
  }

  lemma ReassessSameRecords(s: Snapshot, id: string, now: Time)
    requires id in s.quota && id in s.health && id in s.byIdentity && Sorted(s.quota[id].events)
    ensures SameRecords(s, Reassess(s, id, now))
  {
  }

  lemma ClosedStep(w: World, step: Step)
    requires Good(w) && w.closed && !step.Restart?
    ensures var next := Next(w, step);
      next.closed && SameRecords(w.live, next.live) && (|w.disk.states| == 1 ==> next.disk == w.disk)
  {
    if step.ReassessStep? && Enabled(w, step) {
      assert Next(w, step) == w.(live := Reassess(w.live, step.id, step.now));
      ReassessSameRecords(w.live, step.id, step.now);
    } else {
      assert Next(w, step).live == w.live;
    }
  }

  /** After shutdown no later call of the process changes quota or deadlines, nor a state.json that was fully synced. */
  lemma NothingAfterShutdown(w: World, steps: seq<Step>)
    requires Good(w) && w.closed && |w.disk.states| == 1 && forall i | 0 <= i < |steps| :: !steps[i].Restart?
    ensures SameRecords(w.live, Run(Next, w, steps).live) && Run(Next, w, steps).disk == w.disk
  {
    var inv := (x: World) => Good(x) && x.closed && SameRecords(w.live, x.live) && x.disk == w.disk;
    var admissible := (s: Step) => !s.Restart?;
    forall x, s | inv(x) && admissible(s) ensures inv(Next(x, s)) {
      NextGood(x, s);
      ClosedStep(x, s);
    }
    RunKeeps(Next, inv, admissible, w, steps);
  }

  /** The run of a shutdown: admission closes, others finish, the last save returns nil, and anything may follow. */
  ghost function Waited(w: World, during: seq<Step>): World {
    Run(Next, Next(w, BeginShutdown), during)
  }

  ghost predicate ShutdownRun(w: World, during: seq<Step>, finish: Step, later: seq<Step>) {
    && Good(w) && Enabled(w, BeginShutdown)
    && (forall i | 0 <= i < |during| :: !during[i].Restart?)
    && (forall i | 0 <= i < |later| :: !later[i].Restart?)
    && finish.FinishShutdown? && Enabled(Waited(w, during), finish) && ShutdownSucceeds(finish)
  }

  lemma WaitedCountsDown(w: World, during: seq<Step>)
    requires Good(w) && Enabled(w, BeginShutdown) && forall i | 0 <= i < |during| :: !during[i].Restart?
    ensures Good(Waited(w, during)) && Waited(w, during).stopped && AtMost(Waited(w, during).crew, w.crew)
  {
    var begun := Next(w, BeginShutdown);
    assert Good(begun) && begun.stopped && begun.crew == w.crew by {
      NextGood(w, BeginShutdown);
    }
    RunCountsDown(begun, during);
  }

  lemma FileAfter(last: World, finish: Step, later: seq<Step>)
    requires Good(last) && finish.FinishShutdown? && Enabled(last, finish) && ShutdownSucceeds(finish)
    requires forall i | 0 <= i < |later| :: !later[i].Restart?
    ensures var end := Run(Next, Next(last, finish), later);
      end.disk.states == [Captured(last.live, last.next + 1, last.clock)] && SameRecords(last.live, end.live)
  {
    LastSave(last, finish);
    NothingAfterShutdown(Next(last, finish), later);
  }

  /** What a nil shutdown leaves in state.json: the final quota and exactly the unexpired deadlines. */
  ghost predicate Saved(disk: Disk<Capture>, last: World) {
    && disk.states == [Captured(last.live, last.next + 1, last.clock)]
    && disk.states[0].quota == last.live.quota
    && ExactDeadlines(disk.states[0].health, last.live.health, last.clock)
  }

  lemma SavedAfter(last: World, finish: Step, later: seq<Step>)
    requires Good(last) && finish.FinishShutdown? && Enabled(last, finish) && ShutdownSucceeds(finish)
    requires forall i | 0 <= i < |later| :: !later[i].Restart?
    ensures var end := Run(Next, Next(last, finish), later);
      Saved(end.disk, last) && SameRecords(last.live, end.live)
  {
    FileAfter(last, finish, later);
    CapturedDeadlines(last.live, last.next + 1, last.clock);
  }

  lemma WaitedNoneLeft(w: World, during: seq<Step>)
    requires Good(w) && Enabled(w, BeginShutdown) && forall i | 0 <= i < |during| :: !during[i].Restart?
    requires Waited(w, during).crew.Idle()
    ensures var last := Waited(w, during);
      Good(last) && last.handler.None? && last.polls == {} && AtMost(last.crew, w.crew)
  {
    WaitedCountsDown(w, during);
    NoneLeft(Waited(w, during));
  }

  /**
   Over every run from the closing of admission to a nil return and beyond: every admitted handler
   and every poll had written by then, state.json durably holds the final live quota and exactly
   the unexpired deadlines, and nothing changes either afterwards.
   */
  lemma ShutdownSavesLive(w: World, during: seq<Step>, finish: Step, later: seq<Step>)
    requires ShutdownRun(w, during, finish, later)
    ensures var last := Waited(w, during);
      var end := Run(Next, Next(last, finish), later);
      && last.handler.None? && last.polls == {} && AtMost(last.crew, w.crew)
      && Saved(end.disk, last) && SameRecords(last.live, end.live)
  {
    var last := Waited(w, during);
    assert Good(last) && last.handler.None? && last.polls == {} && AtMost(last.crew, w.crew) by {
      WaitedNoneLeft(w, during);
    }
    SavedAfter(last, finish, later);
  }

  lemma CapturedDeadlines(s: Snapshot, ticket: nat, now: Time)
    requires now > 0
    ensures ExactDeadlines(Captured(s, ticket, now).health, s.health, now)
  {
  }

  /** After admission is closed nothing removes a fact, since commits and unblocks are refused too. */
  lemma StoppedKeepsFact(w: World, step: Step, f: Fact, t: nat)
    requires Good(w) && w.stopped && KeptSince(w, f, t) && !step.Restart?
    ensures KeptSince(Next(w, step), f, t)
  {
    if Enabled(w, step) {
      StepKeepsFact(w, step, f, t);
    }
  }

  lemma StoppedRunKeepsFact(w: World, steps: seq<Step>, f: Fact, t: nat)
    requires Good(w) && w.stopped && KeptSince(w, f, t) && forall i | 0 <= i < |steps| :: !steps[i].Restart?
    ensures KeptSince(Run(Next, w, steps), f, t)
  {
    var inv := (x: World) => Good(x) && x.stopped && KeptSince(x, f, t);
    var admissible := (s: Step) => !s.Restart?;
    forall x, s | inv(x) && admissible(s) ensures inv(Next(x, s)) {
      NextCountsDown(x, s);
      StoppedKeepsFact(x, s, f, t);
    }
    RunKeeps(Next, inv, admissible, w, steps);
  }

  lemma WaitedKeepsFact(w: World, during: seq<Step>, f: Fact)
    requires Good(w) && Enabled(w, BeginShutdown) && forall i | 0 <= i < |during| :: !during[i].Restart?
    requires Configured(f, w.live) && InLive(f, w.live)
    ensures var last := Waited(w, during);
      Moot(f, last.clock) || InLive(f, last.live)
  {
    var begun := Next(w, BeginShutdown);
    assert Good(begun) && begun.stopped && KeptSince(begun, f, w.next + 1) by {
      NextGood(w, BeginShutdown);
      assert begun == w.(stopped := true);
    }
    StoppedRunKeepsFact(begun, during, f, w.next + 1);
  }

  /**
   What was live when admission closed, a record still being written by its handler included, is
   in the file that a nil-returning shutdown leaves, unless it no longer mattered by then.
   */
  lemma ShutdownSavesFact(w: World, during: seq<Step>, finish: Step, later: seq<Step>, f: Fact)
    requires ShutdownRun(w, during, finish, later)
    requires Configured(f, w.live) && InLive(f, w.live)
    ensures var last := Waited(w, during);
      var end := Run(Next, Next(last, finish), later);
      Moot(f, last.clock) || forall c | c in end.disk.states :: InCapture(f, c)
  {
    var last := Waited(w, during);
    WaitedCountsDown(w, during);
    FileAfter(last, finish, later);
    WaitedKeepsFact(w, during, f);
    CaptureHasFact(last.live, last.next + 1, last.clock, f);
  }
}
