/**
 Plans and buckets over whole runs: what a committed or started configuration chooses explicitly for
 an account is what the account has, whatever the quota endpoint reports; otherwise it has what was
 reported last.
 */
module Plans {
  import opened Common
  import opened Machine
  import opened Store
  import opened Windows
  import opened Quota
  import opened Runtime
  import opened Protocol
  import opened Scheduler

  /** The world, and the configuration last committed, or last started with. */
  datatype Configured = Configured(world: World, chosen: Snapshot)

  ghost function ConfiguredNext(c: Configured, step: Step): Configured {
    if !(Good(c.world) && Enabled(c.world, step)) then c
    else Configured(Apply(c.world, step), ChosenAfter(step, c.chosen))
  }

  function ChosenAfter(step: Step, chosen: Snapshot): Snapshot {
    match step
    case CommitStep(staged) => staged
    case Restart(_, base) => base
    case _ => chosen
  }

  /** The same settings, credentials and accounts. */
  ghost predicate Honours(s: Snapshot, chosen: Snapshot) {
    s.config == chosen.config && s.byAuthId == chosen.byAuthId && HonoursAccounts(s.byIdentity, chosen.byIdentity)
  }

  /** The same accounts, each as disabled as it was, and every explicit one unchanged. */
  ghost predicate HonoursAccounts(index: map<string, Account>, chosen: map<string, Account>) {
    index.Keys == chosen.Keys && forall id | id in chosen :: HonoursOne(index[id], chosen[id])
  }

  predicate HonoursOne(a: Account, chosen: Account) {
    a.disabled == chosen.disabled && (Explicit(chosen) ==> a == chosen)
  }

  lemma RewriteHonours(index: map<string, Account>, chosen: map<string, Account>, source: PlanSource)
    requires HonoursAccounts(index, chosen)
    ensures HonoursAccounts(source.Index(index), chosen)
  {
    forall id | id in chosen ensures HonoursOne(source.Index(index)[id], chosen[id]) {
      assert HonoursOne(index[id], chosen[id]);
      RewriteSound(source, index[id]);
    }
  }

  lemma PollHonours(s: Snapshot, id: string, report: Option<QuotaSnapshot>, startedAt: Time, chosen: Snapshot)
    requires id in s.quota && id in s.health && id in s.byIdentity && Sorted(s.quota[id].events)
    requires Honours(s, chosen)
    ensures Honours(Poll(s, id, report, startedAt), chosen)
  {
    if report.Some? {
      RewriteHonours(s.byIdentity, chosen.byIdentity, Polled(id, report.value.plan));
    }
  }

  lemma StageHonours(base: Snapshot, file: Capture, now: Time)
    requires forall id | id in base.byIdentity :: Sorted(StagedQuota(file, id, now, base.config.retention).events)
    ensures Honours(Stage(base, file, now), base)
  {
    RewriteHonours(base.byIdentity, base.byIdentity, Loaded(file.quota));
    StageConfigured(base, file, now);
  }

  lemma StageConfigured(base: Snapshot, file: Capture, now: Time)
    requires forall id | id in base.byIdentity :: Sorted(StagedQuota(file, id, now, base.config.retention).events)
    ensures var s := Stage(base, file, now);
      s.config == base.config && s.byAuthId == base.byAuthId
        && s.byIdentity == Loaded(file.quota).Index(base.byIdentity)
  {
  }

  lemma RestartHonours(w: World, persisted: nat, base: Snapshot)
    requires Good(w) && Enabled(w, Restart(persisted, base))
    ensures Honours(AfterRestart(w, persisted, base).live, base)
  {
    var file := w.disk.states[persisted].(ticket := 0);
    StageKeeps(base, file, w.clock);
    StageHonours(base, file, w.clock);
  }

  /** The configuration part of two snapshots is the same. */
  predicate SameConfiguration(s: Snapshot, t: Snapshot) {
    s.config == t.config && s.byAuthId == t.byAuthId && s.byIdentity == t.byIdentity
  }

  lemma UsageKeepsConfiguration(w: World, record: UsageRecord, now: Time)
    requires Good(w) && Enabled(w, UsageStep(record, now))
    ensures SameConfiguration(AfterUsage(w, record, now).live, w.live)
  {
  }

  lemma WriteKeepsConfiguration(w: World, c: Capture, outcome: WriteOutcome)
    ensures SameConfiguration(AfterWrite(w, c, outcome).live, w.live)
  {
  }

  lemma OtherKeepsConfiguration(w: World, step: Step)
    requires Good(w) && Enabled(w, step) && !step.PollStep? && !step.CommitStep? && !step.Restart? && !step.UsageStep?
    ensures SameConfiguration(Apply(w, step).live, w.live)
  {
    if step.UsageWrite? {
      WriteKeepsConfiguration(w, w.handler.value, step.outcome);
    } else if step.PollWrite? {
      WriteKeepsConfiguration(w, step.capture, step.outcome);
    } else if step.UnblockStep? {
      assert Apply(w, step) == w.(live := Unblock(w.live, step.id, w.clock));
    } else if step.ReassessStep? {
      assert Apply(w, step) == w.(live := Reassess(w.live, step.id, step.now));
    } else {
      assert Apply(w, step).live == w.live;
    }
  }

  lemma CommitHonours(live: Snapshot, staged: Snapshot)
    ensures Honours(Commit(live, staged), staged)
  {
    RewriteHonours(staged.byIdentity, staged.byIdentity, Carried(live.byIdentity));
  }

  lemma StepHonours(w: World, step: Step, chosen: Snapshot)
    requires Good(w) && Enabled(w, step) && Honours(w.live, chosen)
    ensures Honours(Apply(w, step).live, ChosenAfter(step, chosen))
  {
    if step.PollStep? {
      if !Cancelled(w, step.id, step.generation) {
        PollHonours(w.live, step.id, step.report, step.startedAt, chosen);
      }
    } else if step.CommitStep? {
      CommitHonours(w.live, step.staged);
    } else if step.Restart? {
      RestartHonours(w, step.persisted, step.base);
    } else if step.UsageStep? {
      UsageKeepsConfiguration(w, step.record, step.now);
    } else {
      OtherKeepsConfiguration(w, step);
    }
  }

  /**
   Over every run, polls, commits and restarts included, settings and credentials are those of the
   configuration last committed or started with, every account is disabled exactly when it is there,
   and one that is explicit there has the plan and the buckets chosen there.
   */
  lemma ConfigurationKept(c: Configured, steps: seq<Step>)
    requires Good(c.world) && Honours(c.world.live, c.chosen)
    ensures var end := Run(ConfiguredNext, c, steps);
      end.world == Run(Next, c.world, steps) && Honours(end.world.live, end.chosen)
  {
    var inv := (x: Configured) => Good(x.world) && Honours(x.world.live, x.chosen);
    forall x, s: Step | inv(x) ensures inv(ConfiguredNext(x, s)) {
      NextHonours(x, s);
    }
    RunKeeps(ConfiguredNext, inv, _ => true, c, steps);
    ConfiguredWorld(c, steps);
  }

  lemma NextHonours(c: Configured, step: Step)
    requires Good(c.world) && Honours(c.world.live, c.chosen)
    ensures var next := ConfiguredNext(c, step);
      Good(next.world) && Honours(next.world.live, next.chosen)
  {
    if Enabled(c.world, step) {
      StepGood(c.world, step);
      StepHonours(c.world, step, c.chosen);
    }
  }

  lemma {:induction false} ConfiguredWorld(c: Configured, steps: seq<Step>)
    ensures Run(ConfiguredNext, c, steps).world == Run(Next, c.world, steps)
    decreases |steps|
  {
    if steps != [] {
      ConfiguredWorld(ConfiguredNext(c, steps[0]), steps[1..]);
    }
  }

  /** Every run may begin with a first start. */
  lemma FirstHonours(base: Snapshot, now: Time)
    requires forall id | id in base.byIdentity :: Sorted(StagedQuota(NO_FILE, id, now, base.config.retention).events)
    ensures Honours(StartWorld(base, NO_FILE, now).live, base)
  {
    StageHonours(base, NO_FILE, now);
  }

  /** No pick of any run reaches an account that the last configuration disabled. */
  lemma NoPickWhileDisabled(c: Configured, steps: seq<Step>, id: string, cs: seq<Candidate>, read: Time, r: Response)
    requires Good(c.world) && Honours(c.world.live, c.chosen)
    requires var end := Run(ConfiguredNext, c, steps);
      && id in end.chosen.byIdentity && end.chosen.byIdentity[id].disabled && Keyed(cs)
      && Complete(end.world.live) && Expected(end.world.stopped, end.world.live, cs, read, r)
    ensures !MayReach(Run(ConfiguredNext, c, steps).world.live, cs, r, id)
  {
    ConfigurationKept(c, steps);
    var end := Run(ConfiguredNext, c, steps);
    assert HonoursOne(end.world.live.byIdentity[id], end.chosen.byIdentity[id]);
    ImpairedUnreachable(end.world.stopped, end.world.live, cs, read, r, id);
  }

  // ---------------------------------------------------------------- reported plans

  /** On that plan, with the plan's own credits, and by nobody's explicit choice. */
  predicate OnPlan(a: Account, plan: Plan) {
    && !Explicit(a) && a.plan == plan
    && match plan
       case Lite => a.fiveHourCredits == 2_000 && a.weeklyCredits == 10_000
       case Pro => a.fiveHourCredits == 12_000 && a.weeklyCredits == 60_000
       case Max => a.fiveHourCredits == 28_000 && a.weeklyCredits == 140_000
       case Custom => false
       case Unnamed => false
  }

  predicate Named(plan: Plan) {
    plan == Lite || plan == Pro || plan == Plan.Max
  }

  /** Free to follow a report: no explicit choice, no custom plan, and a plan's own credits if already on it. */
  predicate Follows(a: Account, plan: Plan) {
    !Explicit(a) && a.plan != Custom && (a.plan == plan ==> OnPlan(a, plan))
  }

  ghost predicate HasPlan(s: Snapshot, id: string, plan: Plan) {
    id in s.byIdentity && OnPlan(s.byIdentity[id], plan)
  }

  lemma SyncFollows(a: Account, plan: Plan)
    requires Named(plan) && Follows(a, plan)
    ensures OnPlan(SyncPlan(a, plan), plan)
  {
  }

  /** A report puts an account that may follow it on the reported plan. */
  lemma PollSetsPlan(w: World, poll: Step)
    requires Good(w) && poll.PollStep? && poll.report.Some? && Enabled(w, poll)
    requires !Cancelled(w, poll.id, poll.generation)
    requires Named(poll.report.value.plan) && Follows(w.live.byIdentity[poll.id], poll.report.value.plan)
    ensures Good(Next(w, poll)) && HasPlan(Next(w, poll).live, poll.id, poll.report.value.plan)
  {
    NextGood(w, poll);
    SyncFollows(w.live.byIdentity[poll.id], poll.report.value.plan);
    assert Next(w, poll).live == Poll(w.live, poll.id, poll.report, poll.startedAt);
  }

  /** A report changes an account exactly when it names another plan and nobody chose the account's own. */
  lemma ReportChangesPlanIff(s: Snapshot, id: string, report: QuotaSnapshot)
    requires Complete(s) && Indexed(s.accounts, s.byIdentity) && id in s.byIdentity
    ensures var a, after := s.byIdentity[id], Poll(s, id, Some(report), report.observedAt).byIdentity[id];
      && (after != a <==> Named(report.plan) && a.plan != report.plan && a.plan != Custom && !Explicit(a))
      && (after != a ==> OnPlan(after, report.plan))
      && after == a.(plan := after.plan, fiveHourCredits := after.fiveHourCredits, weeklyCredits := after.weeklyCredits)
  {
  }

  /** A start does the same with the report that state.json holds. */
  lemma StartSetsPlan(base: Snapshot, file: Capture, now: Time, id: string, plan: Plan)
    requires forall id | id in base.byIdentity :: Sorted(StagedQuota(file, id, now, base.config.retention).events)
    requires id in base.byIdentity && base.byIdentity[id].identity == id
    requires id in file.quota && file.quota[id].authoritative.Some? && file.quota[id].authoritative.value.plan == plan
    requires Named(plan) && Follows(base.byIdentity[id], plan)
    ensures HasPlan(Stage(base, file, now), id, plan)
  {
    SyncFollows(base.byIdentity[id], plan);
  }

  /** The step brings the account no report of another named plan, and leaves it configured without explicit choices. */
  ghost predicate LeavesPlan(step: Step, id: string, plan: Plan) {
    match step
    case PollStep(_, target, _, _, report) =>
      target == id && report.Some? && Named(report.value.plan) ==> report.value.plan == plan
    case CommitStep(staged) => id in staged.byIdentity && !Explicit(staged.byIdentity[id])
    case Restart(_, _) => false
    case _ => true
  }

  lemma PollKeepsPlan(s: Snapshot, target: string, report: Option<QuotaSnapshot>, startedAt: Time, id: string,
                      plan: Plan)
    requires target in s.quota && target in s.health && target in s.byIdentity && Sorted(s.quota[target].events)
    requires HasPlan(s, id, plan) && s.byIdentity[id].identity == id
    requires target == id && report.Some? && Named(report.value.plan) ==> report.value.plan == plan
    ensures HasPlan(Poll(s, target, report, startedAt), id, plan)
  {
  }

  /** A commit keeps a named plan that neither side chose explicitly; otherwise it takes the staged one. */
  lemma CommitCarriesPlanIff(live: Snapshot, staged: Snapshot, id: string)
    requires Indexed(staged.accounts, staged.byIdentity) && id in staged.byIdentity
    ensures var a, after := staged.byIdentity[id], Commit(live, staged).byIdentity[id];
      var carried := id in live.byIdentity && Named(live.byIdentity[id].plan)
        && !Explicit(live.byIdentity[id]) && !Explicit(a);
      && (if carried then OnPlan(after, live.byIdentity[id].plan) else after == a)
      && after == a.(plan := after.plan, fiveHourCredits := after.fiveHourCredits, weeklyCredits := after.weeklyCredits)
  {
  }

  lemma CommitKeepsPlan(live: Snapshot, staged: Snapshot, id: string, plan: Plan)
    requires HasPlan(live, id, plan) && id in staged.byIdentity && !Explicit(staged.byIdentity[id])
    requires staged.byIdentity[id].identity == id
    ensures HasPlan(Commit(live, staged), id, plan)
  {
  }

  lemma StepKeepsPlan(w: World, step: Step, id: string, plan: Plan)
    requires Good(w) && Enabled(w, step) && LeavesPlan(step, id, plan) && HasPlan(w.live, id, plan)
    ensures HasPlan(Apply(w, step).live, id, plan)
  {
    if step.PollStep? {
      if !Cancelled(w, step.id, step.generation) {
        PollKeepsPlan(w.live, step.id, step.report, step.startedAt, id, plan);
      }
    } else if step.CommitStep? {
      CommitKeepsPlan(w.live, step.staged, id, plan);
    } else if step.UsageStep? {
      UsageKeepsConfiguration(w, step.record, step.now);
    } else {
      OtherKeepsConfiguration(w, step);
    }
  }

  /**
   From a report to the next one of another plan or a restart, whatever happens in between, the
   account has the reported plan and that plan's credits; commits included, as long as they stage it
   without explicit choices.
   */
  lemma ReportedPlanKept(w: World, steps: seq<Step>, id: string, plan: Plan)
    requires Good(w) && HasPlan(w.live, id, plan)
    requires forall i | 0 <= i < |steps| :: LeavesPlan(steps[i], id, plan)
    ensures HasPlan(Run(Next, w, steps).live, id, plan)
  {
    var inv := (x: World) => Good(x) && HasPlan(x.live, id, plan);
    var leaves := (s: Step) => LeavesPlan(s, id, plan);
    forall x, s | inv(x) && leaves(s) ensures inv(Next(x, s)) {
      NextGood(x, s);
      if Enabled(x, s) {
        StepKeepsPlan(x, s, id, plan);
      }
    }
    RunKeeps(Next, inv, leaves, w, steps);
  }
}
