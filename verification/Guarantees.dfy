/** The promises of the runtime over whole runs. */
module Guarantees {
  import opened Common
  import opened Machine
  import opened Store
  import opened Runtime
  import opened Protocol
  import opened Durability

  ghost predicate Admissible(step: Step, f: Fact) {
    !step.Restart? && Respects(step, f)
  }

  lemma NextKeepsFact(w: World, step: Step, f: Fact, t: nat)
    requires Good(w) && KeptSince(w, f, t) && Admissible(step, f)
    ensures Good(Next(w, step)) && KeptSince(Next(w, step), f, t)
  {
    NextGood(w, step);
    if Enabled(w, step) {
      StepKeepsFact(w, step, f, t);
    }
  }

  lemma RunKeepsFact(w: World, steps: seq<Step>, f: Fact, t: nat)
    requires Good(w) && KeptSince(w, f, t) && forall i | 0 <= i < |steps| :: Admissible(steps[i], f)
    ensures Good(Run(Next, w, steps)) && KeptSince(Run(Next, w, steps), f, t)
  {
    var inv := (w: World) => Good(w) && KeptSince(w, f, t);
    var admissible := (s: Step) => Admissible(s, f);
    forall w, s | inv(w) && admissible(s) ensures inv(Next(w, s)) {
      NextKeepsFact(w, s, f, t);
    }
    RunKeeps(Next, inv, admissible, w, steps);
  }

  lemma NextKeepsDurable(w: World, step: Step, f: Fact)
    requires Good(w) && Durable(w, f) && Respects(step, f)
    ensures Good(Next(w, step)) && Durable(Next(w, step), f)
  {
    NextGood(w, step);
    if Enabled(w, step) {
      StepKeepsDurable(w, step, f);
    }
  }

  lemma RunKeepsDurable(w: World, steps: seq<Step>, f: Fact)
    requires Good(w) && Durable(w, f) && forall i | 0 <= i < |steps| :: Respects(steps[i], f)
    ensures Good(Run(Next, w, steps)) && Durable(Run(Next, w, steps), f)
  {
    var inv := (w: World) => Good(w) && Durable(w, f);
    var admissible := (s: Step) => Respects(s, f);
    forall w, s | inv(w) && admissible(s) ensures inv(Next(w, s)) {
      NextKeepsDurable(w, s, f);
    }
    RunKeeps(Next, inv, admissible, w, steps);
  }

  // ---------------------------------------------------------------- state.json

  /**
   Over every run, whatever of the unsynced renames a crash undoes, state.json holds no capture
   older than the highest ticket whose write reported success; and no save, queued or new, is
   ever refused by the validator, nor any such file at the next start.
   */
  lemma StateFileNeverStale(w: World, steps: seq<Step>, ticket: nat)
    requires Good(w)
    ensures var end := Run(Next, w, steps);
      && (forall c | c in end.disk.states :: end.persisted <= c.ticket && ValidCapture(c, end.clock))
      && (forall c | c in end.polls :: ValidCapture(c, end.clock))
      && (end.handler.Some? ==> ValidCapture(end.handler.value, end.clock))
      && ValidCapture(Captured(end.live, ticket, end.clock), end.clock)
  {
    RunGood(w, steps);
    var end := Run(Next, w, steps);
    CapturedValid(end.live, ticket, end.clock);
  }

  /**
   The index agrees with the account list, and quota and health exist for exactly the indexed accounts,
   after every run.
   */
  lemma IndexAgreesAfterRun(w: World, steps: seq<Step>)
    requires Good(w)
    ensures var s := Run(Next, w, steps).live;
      Indexed(s.accounts, s.byIdentity) && Covered(s) && ValidAccounts(s.byIdentity)
  {
    RunGood(w, steps);
  }

  /** Another goroutine's step: the handler that holds the persistence lock has not written yet. */
  ghost predicate Meanwhile(step: Step, f: Fact) {
    Admissible(step, f) && !step.UsageWrite?
  }

  lemma NextKeepsHandler(w: World, step: Step)
    requires Good(w) && w.handler.Some? && !step.Restart? && !step.UsageWrite?
    ensures Next(w, step).handler == w.handler
  {
  }

  lemma HandlerKeepsFact(w: World, steps: seq<Step>, f: Fact, c: Capture)
    requires Good(w) && w.handler == Some(c) && KeptSince(w, f, c.ticket)
    requires forall i | 0 <= i < |steps| :: Meanwhile(steps[i], f)
    ensures var end := Run(Next, w, steps);
      Good(end) && end.handler == Some(c) && KeptSince(end, f, c.ticket)
  {
    var inv := (w: World) => Good(w) && w.handler == Some(c) && KeptSince(w, f, c.ticket);
    var admissible := (s: Step) => Meanwhile(s, f);
    forall w, s | inv(w) && admissible(s) ensures inv(Next(w, s)) {
      NextKeepsFact(w, s, f, c.ticket);
      NextKeepsHandler(w, s);
    }
    RunKeeps(Next, inv, admissible, w, steps);
  }

  /** The handler's ticket is the newest anyone has tried to write, so its write is never dropped as stale. */
  lemma TicketReported(w: World, c: Capture)
    requires Good(w) && w.handler == Some(c)
    ensures Next(w, UsageWrite(Committed)).persisted == c.ticket
  {
  }

  lemma SuccessfulWrite(w: World, f: Fact, c: Capture)
    requires Good(w) && w.handler == Some(c) && KeptSince(w, f, c.ticket)
    ensures Good(Next(w, UsageWrite(Committed))) && Durable(Next(w, UsageWrite(Committed)), f)
  {
    NextKeepsFact(w, UsageWrite(Committed), f, c.ticket);
    TicketReported(w, c);
  }

  /** The fact is live and in every state.json that a crash can leave, or it no longer matters. */
  ghost predicate Survives(w: World, f: Fact) {
    Moot(f, w.clock) || (InLive(f, w.live) && forall c | c in w.disk.states :: InCapture(f, c))
  }

  lemma DurableSurvives(w: World, f: Fact)
    requires Good(w) && Durable(w, f)
    ensures Survives(w, f)
  {
  }

  /** The handler's goroutine captures, others act meanwhile, its write reports success, and anything follows. */
  function Reported(during: seq<Step>, later: seq<Step>): seq<Step> {
    during + ([UsageWrite(Committed)] + later)
  }

  /**
   Once the handler's write reports success, the fact survives every later interleaving, failed
   write, crash and restart that keeps the account configured and, for an exhaustion, does not
   unblock it.
   */
  lemma ReportedFactSurvives(w: World, c: Capture, during: seq<Step>, later: seq<Step>, f: Fact)
    requires Good(w) && w.handler == Some(c) && KeptSince(w, f, c.ticket)
    requires forall i | 0 <= i < |during| :: Meanwhile(during[i], f)
    requires forall i | 0 <= i < |later| :: Respects(later[i], f)
    ensures Survives(Run(Next, w, Reported(during, later)), f)
  {
    RunSplit(Next, w, during, [UsageWrite(Committed)] + later);
    HandlerKeepsFact(w, during, f, c);
    SurvivesAfterReport(Run(Next, w, during), c, later, f);
  }

  lemma SurvivesAfterReport(w: World, c: Capture, later: seq<Step>, f: Fact)
    requires Good(w) && w.handler == Some(c) && KeptSince(w, f, c.ticket)
    requires forall i | 0 <= i < |later| :: Respects(later[i], f)
    ensures Survives(Run(Next, w, [UsageWrite(Committed)] + later), f)
  {
    DurableAfterReport(w, c, later, f);
    DurableSurvives(Run(Next, w, [UsageWrite(Committed)] + later), f);
  }

  lemma DurableAfterReport(w: World, c: Capture, later: seq<Step>, f: Fact)
    requires Good(w) && w.handler == Some(c) && KeptSince(w, f, c.ticket)
    requires forall i | 0 <= i < |later| :: Respects(later[i], f)
    ensures var end := Run(Next, w, [UsageWrite(Committed)] + later);
      Good(end) && Durable(end, f)
  {
    SuccessfulWrite(w, f, c);
    RunCons(Next, w, UsageWrite(Committed), later);
    RunKeepsDurable(Next(w, UsageWrite(Committed)), later, f);
  }

  lemma ReportedDurable(w: World, during: seq<Step>, later: seq<Step>, f: Fact)
    requires Good(w) && w.handler.Some? && KeptSince(w, f, w.handler.value.ticket)
    requires forall i | 0 <= i < |during| :: Meanwhile(during[i], f)
    requires forall i | 0 <= i < |later| :: Respects(later[i], f)
    ensures var end := Run(Next, w, Reported(during, later));
      Good(end) && Durable(end, f)
  {
    RunSplit(Next, w, during, [UsageWrite(Committed)] + later);
    HandlerKeepsFact(w, during, f, w.handler.value);
    DurableAfterReport(Run(Next, w, during), w.handler.value, later, f);
  }

  /** A record of a managed account is admitted: its capture carries what the record established. */
  lemma AdmittedUsage(w: World, record: UsageRecord, now: Time, f: Fact)
    requires Good(w) && Enabled(w, UsageStep(record, now)) && record.authId in w.live.byAuthId
    requires Configured(f, w.live) && (Moot(f, w.clock) || InLive(f, AfterUsage(w, record, now).live))
    ensures var admitted := AfterUsage(w, record, now);
      Good(admitted) && admitted.handler.Some? && KeptSince(admitted, f, admitted.handler.value.ticket)
  {
    UsageGood(w, record, now);
    var id := w.live.byAuthId[record.authId];
    UsageKeeps(w.live, id, record, now, w.clock);
    FreshTicketKeepsFact(w, Usage(w.live, id, record, now), f);
  }

  /** Nothing else carries a ticket as new as the one just taken. */
  lemma FreshTicketKeepsFact(w: World, s: Snapshot, f: Fact)
    requires Good(w) && Configured(f, s) && (Moot(f, w.clock) || InLive(f, s))
    ensures var (w', c) := Advance(w, s);
      c.ticket == w.next + 1 && KeptSince(w'.(handler := Some(c), crew := w.crew.Admit()), f, c.ticket)
  {
    CaptureHasFact(s, w.next + 1, w.clock, f);
  }

  /**
   The event of a usage record stays in state.json, as often as it has been recorded, from the
   moment handleUsage returns nil until it is `keep` old, for any `keep` up to the configured
   retention.
   */
  lemma AcceptedEventSurvives(w: World, record: UsageRecord, now: Time, during: seq<Step>, later: seq<Step>, keep: int)
    requires Good(w) && Enabled(w, UsageStep(record, now)) && record.authId in w.live.byAuthId
      && keep <= w.live.config.retention
    requires AcceptedEvent(w.live.quota[w.live.byAuthId[record.authId]], record, now).Some?
    requires var f := AcceptedFact(w.live, w.live.byAuthId[record.authId], record, now, keep);
      (forall i | 0 <= i < |during| :: Meanwhile(during[i], f))
        && (forall i | 0 <= i < |later| :: Respects(later[i], f))
    ensures Survives(Run(Next, AfterUsage(w, record, now), Reported(during, later)),
                     AcceptedFact(w.live, w.live.byAuthId[record.authId], record, now, keep))
  {
    var id := w.live.byAuthId[record.authId];
    var f := AcceptedFact(w.live, id, record, now, keep);
    UsageKeeps(w.live, id, record, now, w.clock);
    AcceptedIsLive(w.live, id, record, now, keep);
    AdmittedUsage(w, record, now, f);
    ReportedFactSurvives(AfterUsage(w, record, now), AfterUsage(w, record, now).handler.value, during, later, f);
  }

  // ---------------------------------------------------------------- deadlines

  /**
   Within one process a deadline shrinks only through an unblock of that very account, and a suspension
   not even so; nor does its passing remove it.
   */
  lemma DeadlinesOnlyGrow(w: World, steps: seq<Step>, f: Fact)
    requires Good(w) && Kept(f, w.live) && forall i | 0 <= i < |steps| :: Admissible(steps[i], f)
    ensures Good(Run(Next, w, steps)) && Kept(f, Run(Next, w, steps).live)
  {
    var inv := (w: World) => Good(w) && Kept(f, w.live);
    var admissible := (s: Step) => Admissible(s, f);
    forall w, s | inv(w) && admissible(s) ensures inv(Next(w, s)) {
      NextKeepsDeadline(w, s, f);
    }
    RunKeeps(Next, inv, admissible, w, steps);
  }

  lemma NextKeepsDeadline(w: World, step: Step, f: Fact)
    requires Good(w) && Kept(f, w.live) && Admissible(step, f)
    ensures Good(Next(w, step)) && Kept(f, Next(w, step).live)
  {
    NextGood(w, step);
    if Enabled(w, step) {
      StepKeepsDeadline(w, step, f);
    }
  }

  // ---------------------------------------------------------------- suspensions and exhaustions

  /** A record of a failure, and the deadline it calls for. */
  ghost predicate Failing(w: World, record: UsageRecord, now: Time, f: Fact) {
    && Good(w) && Enabled(w, UsageStep(record, now)) && record.authId in w.live.byAuthId
    && CallsFor(w.live, w.live.byAuthId[record.authId], record, now, f)
  }

  /** The handler holds a capture with the fact, and the live state has it too. */
  ghost predicate Established(w: World, f: Fact) {
    Good(w) && Kept(f, w.live) && w.handler.Some? && KeptSince(w, f, w.handler.value.ticket)
  }

  lemma DeadlineAdmitted(w: World, record: UsageRecord, now: Time, f: Fact)
    requires Failing(w, record, now, f)
    ensures Established(AfterUsage(w, record, now), f)
  {
    UsageKeeps(w.live, f.id, record, now, w.clock);
    DeadlineIsLive(w.live, f.id, record, now, f);
    AdmittedUsage(w, record, now, f);
  }

  /**
   After an authentication failure the account stays suspended for the configured duration from the
   time the handler read, and after a 429 that exhausts it, exhausted to the end that called for,
   whatever records, polls, writes, unblocks (of others, for an exhaustion) and same-store commits
   follow in the process.
   */
  lemma DeadlineHolds(w: World, record: UsageRecord, now: Time, f: Fact, admitted: World, steps: seq<Step>)
    requires Failing(w, record, now, f) && admitted == AfterUsage(w, record, now)
    requires forall i | 0 <= i < |steps| :: Admissible(steps[i], f)
    ensures Good(Run(Next, admitted, steps)) && Kept(f, Run(Next, admitted, steps).live)
  {
    DeadlineAdmitted(w, record, now, f);
    EstablishedHolds(admitted, f, steps);
  }

  lemma EstablishedHolds(w: World, f: Fact, steps: seq<Step>)
    requires Established(w, f) && forall i | 0 <= i < |steps| :: Admissible(steps[i], f)
    ensures Good(Run(Next, w, steps)) && Kept(f, Run(Next, w, steps).live)
  {
    DeadlinesOnlyGrow(w, steps, f);
  }

  /**
   If the handler's write reported success, the deadline is also there after a restart that comes
   before its end, and from then on in the new process, whatever happened before.
   */
  lemma DeadlineSurvivesRestart(w: World, record: UsageRecord, now: Time, f: Fact, admitted: World,
                                during: seq<Step>, later: seq<Step>, restart: Step, recent: seq<Step>)
    requires Failing(w, record, now, f) && admitted == AfterUsage(w, record, now)
    requires forall i | 0 <= i < |during| :: Meanwhile(during[i], f)
    requires forall i | 0 <= i < |later| :: Respects(later[i], f)
    requires restart.Restart? && Respects(restart, f) && forall i | 0 <= i < |recent| :: Admissible(recent[i], f)
    requires !Moot(f, Run(Next, admitted, Reported(during, later)).clock)
    ensures var end := Run(Next, Next(Run(Next, admitted, Reported(during, later)), restart), recent);
      Good(end) && Kept(f, end.live)
  {
    DeadlineAdmitted(w, record, now, f);
    var crashed := Run(Next, admitted, Reported(during, later));
    assert Good(crashed) && Durable(crashed, f) by {
      ReportedDurable(admitted, during, later, f);
    }
    RestartKeeps(crashed, restart, f);
    DeadlinesOnlyGrow(Next(crashed, restart), recent, f);
  }

  lemma RestartKeeps(w: World, restart: Step, f: Fact)
    requires Good(w) && Durable(w, f) && !Moot(f, w.clock) && !f.Recorded? && restart.Restart? && Respects(restart, f)
    ensures Good(Next(w, restart)) && Kept(f, Next(w, restart).live)
  {
    NextKeepsDurable(w, restart, f);
    RestartKeepsClock(w, restart);
  }

  lemma RestartKeepsClock(w: World, restart: Step)
    requires Good(w) && restart.Restart?
    ensures Next(w, restart).clock == w.clock
  {
  }

  // ---------------------------------------------------------------- generations

  /** Only a commit changes the generation. */
  lemma ApplyGeneration(w: World, step: Step)
    requires Good(w) && Enabled(w, step) && !step.Restart?
    ensures Apply(w, step).live.generation == w.live.generation + if step.CommitStep? then 1 else 0
  {
  }

  lemma NextGeneration(w: World, step: Step)
    requires Good(w) && !step.Restart?
    ensures Next(w, step).live.generation >= w.live.generation
    ensures step.CommitStep? && Enabled(w, step) ==> Next(w, step).live.generation == w.live.generation + 1
  {
    if Enabled(w, step) {
      ApplyGeneration(w, step);
    }
  }

  /**
   Generations never decrease within a process and every commit moves to a new one, so a poll
   launched for a generation that has been replaced changes nothing: not quota, plans or
   deadlines, no ticket, and not state.json.
   */
  lemma StalePollInert(w: World, commit: Step, steps: seq<Step>, poll: Step)
    requires Good(w) && commit.CommitStep? && Enabled(w, commit) && forall i | 0 <= i < |steps| :: !steps[i].Restart?
    requires poll.PollStep? && poll.generation <= w.live.generation
    ensures var end := Run(Next, Next(w, commit), steps);
      end.live.generation > w.live.generation && Next(end, poll) == end
  {
    var inv := (x: World) => Good(x) && x.live.generation > w.live.generation;
    var admissible := (s: Step) => !s.Restart?;
    NextGood(w, commit);
    NextGeneration(w, commit);
    forall x, s | inv(x) && admissible(s) ensures inv(Next(x, s)) {
      NextGood(x, s);
      NextGeneration(x, s);
    }
    RunKeeps(Next, inv, admissible, Next(w, commit), steps);
  }
}
