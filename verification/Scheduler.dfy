/**
 The scheduler's pick (internal/providers/zai/scheduler.go): a first pass that refreshes and
 counts, a second that collects the healthy candidates and the earliest throttle.
 */
module Scheduler {
  import opened Common
  import opened Machine
  import opened Windows
  import opened Health
  import opened Runtime
  import opened Routing
  import opened Protocol
  import opened Durability
  import opened Guarantees

  /** `key` is the trimmed id; `recognized` says that it looks like a Z.ai credential. */
  datatype Candidate = Candidate(id: string, key: string, recognized: bool)

  datatype Response =
    | NotConfigured
    | UnmanagedCandidate
    | NotHandled
    | Delegate                  // to the host's built-in round robin
    | RateLimited(seconds: int)
    | NoCapacity
    | Selected(id: string)

  predicate Managed(s: Snapshot, c: Candidate) {
    c.key in s.byAuthId
  }

  /** An account's health with its capacity refreshed. */
  function Renewed(s: Snapshot, id: string, now: Time): HealthState
    requires Complete(s) && id in s.health
  {
    RefreshedHealth(s.health[id], s.quota[id], s.byIdentity[id], s.config, now)
  }

  /** Neither view of the account's quota is at its threshold. */
  predicate HasCapacity(s: Snapshot, id: string, now: Time)
    requires Complete(s) && id in s.byIdentity
  {
    var q, a, c := s.quota[id], s.byIdentity[id], s.config;
    var fiveHour, weekly := FiveHourView(q, a, c, now), WeeklyView(q, a, c, now);
    && !AtOrAboveThreshold(fiveHour.consumed, fiveHour.bucket, c.percent)
    && !AtOrAboveThreshold(weekly.consumed, weekly.bucket, c.percent)
  }

  /** Nothing but a throttle can keep requests from the account. */
  predicate Serviceable(s: Snapshot, id: string, now: Time)
    requires Complete(s) && id in s.byIdentity
  {
    && !s.byIdentity[id].disabled
    && s.health[id].suspendedUntil <= now && s.health[id].exhaustedUntil <= now && HasCapacity(s, id, now)
  }

  /** The candidate's account may be given requests. */
  predicate Open(s: Snapshot, c: Candidate, now: Time)
    requires Complete(s) && Managed(s, c)
  {
    Serviceable(s, s.byAuthId[c.key], now) && ThrottleOf(s, c) <= now
  }

  /** The candidate's account waits for the end of its throttle and for nothing else. */
  predicate Waiting(s: Snapshot, c: Candidate, now: Time)
    requires Complete(s) && Managed(s, c)
  {
    Serviceable(s, s.byAuthId[c.key], now) && ThrottleOf(s, c) > now
  }

  function ThrottleOf(s: Snapshot, c: Candidate): Time
    requires Complete(s) && Managed(s, c)
  {
    s.health[s.byAuthId[c.key]].throttledUntil
  }

  /** What the code finds of a candidate's account, its capacity refreshed: the one verdict both passes must reach. */
  function Verdict(s: Snapshot, c: Candidate, now: Time): Assessment
    requires Complete(s) && Managed(s, c)
  {
    Assess(Renewed(s, s.byAuthId[c.key], now), s.byIdentity[s.byAuthId[c.key]].disabled, now)
  }

  /** The verdicts are exclusive, and each is reached exactly when the stored deadlines and views call for it. */
  lemma VerdictMeaning(s: Snapshot, c: Candidate, now: Time)
    requires Complete(s) && Managed(s, c)
    ensures var v, id := Verdict(s, c, now), s.byAuthId[c.key];
      var h, disabled := s.health[id], s.byIdentity[id].disabled;
      && (v.status == Healthy <==> Open(s, c, now))
      && (v.status == Throttled <==> Waiting(s, c, now)) && (v.status == Throttled ==> v.resetAt == ThrottleOf(s, c))
      && (v.status == Disabled <==> disabled)
      && (v.status == Suspended <==> !disabled && h.suspendedUntil > now)
      && (v.status == Exhausted <==>
            !disabled && h.suspendedUntil <= now && (h.exhaustedUntil > now || !HasCapacity(s, id, now)))
  {
  }

  ghost predicate AnyUnmanaged(s: Snapshot, cs: seq<Candidate>) {
    exists i | 0 <= i < |cs| :: !Managed(s, cs[i]) && cs[i].recognized
  }

  ghost predicate AnyManaged(s: Snapshot, cs: seq<Candidate>) {
    exists i | 0 <= i < |cs| :: Managed(s, cs[i])
  }

  ghost predicate AllHealthy(s: Snapshot, cs: seq<Candidate>, now: Time)
    requires Complete(s)
  {
    forall i | 0 <= i < |cs| && Managed(s, cs[i]) :: Open(s, cs[i], now)
  }

  function CountManaged(s: Snapshot, cs: seq<Candidate>): nat {
    if cs == [] then 0 else CountManaged(s, cs[..|cs| - 1]) + if Managed(s, cs[|cs| - 1]) then 1 else 0
  }

  function CountImpaired(s: Snapshot, cs: seq<Candidate>, now: Time): nat
    requires Complete(s)
  {
    if cs == [] then 0
    else
      var last := cs[|cs| - 1];
      CountImpaired(s, cs[..|cs| - 1], now)
      + if Managed(s, last) && !Open(s, last, now) then 1 else 0
  }

  lemma {:induction false} CountsDecide(s: Snapshot, cs: seq<Candidate>, now: Time)
    requires Complete(s)
    ensures CountManaged(s, cs) > 0 <==> AnyManaged(s, cs)
    ensures CountImpaired(s, cs, now) == 0 <==> AllHealthy(s, cs, now)
  {
    if cs != [] {
      var init, last := cs[..|cs| - 1], cs[|cs| - 1];
      CountsDecide(s, init, now);
      assert forall i | 0 <= i < |cs| :: cs[i] == if i < |init| then init[i] else last;
      assert Managed(s, last) ==> Managed(s, cs[|cs| - 1]);
    }
  }

  /** The ids of the open managed candidates, in request order. */
  function HealthyIds(s: Snapshot, cs: seq<Candidate>, now: Time): seq<string>
    requires Complete(s)
  {
    if cs == [] then []
    else
      var last := cs[|cs| - 1];
      HealthyIds(s, cs[..|cs| - 1], now)
      + if Managed(s, last) && Open(s, last, now) then [last.id] else []
  }

  /** The earliest throttle deadline among the waiting candidates, or zero. */
  function EarliestThrottle(s: Snapshot, cs: seq<Candidate>, now: Time): Time
    requires Complete(s)
  {
    if cs == [] then ZERO_TIME
    else
      var last, before := cs[|cs| - 1], EarliestThrottle(s, cs[..|cs| - 1], now);
      if Managed(s, last) && Waiting(s, last, now) && (before == ZERO_TIME || ThrottleOf(s, last) < before)
      then ThrottleOf(s, last) else before
  }

  /** The whole seconds newRateLimitedError announces: the least that cover the wait, and at least one. */
  function RetrySeconds(wait: int): (seconds: int)
    ensures seconds >= 1 && (wait <= 0 ==> seconds == 1)
    ensures wait > 0 ==> (seconds - 1) * SECOND < wait <= seconds * SECOND
    ensures seconds <= 60 <==> wait <= BACKOFF_CAP
  {
    Max(1, (wait + SECOND - 1) / SECOND)
  }

  // ---------------------------------------------------------------- the snapshot during a pick

  /** t is s after the candidates of cs have had their capacity refreshed. */
  ghost predicate RefreshedFor(s: Snapshot, t: Snapshot, cs: seq<Candidate>, now: Time)
    requires Complete(s)
  {
    && t == s.(health := t.health) && t.health.Keys == s.health.Keys
    && (forall id | id in s.health :: t.health[id] == s.health[id] || t.health[id] == Renewed(s, id, now))
    && (forall i | 0 <= i < |cs| && Managed(s, cs[i]) ::
          t.health[s.byAuthId[cs[i].key]] == Renewed(s, s.byAuthId[cs[i].key], now))
  }

  /** Refreshing twice is refreshing once. */
  lemma RenewTwice(s: Snapshot, t: Snapshot, id: string, now: Time)
    requires Complete(s) && Complete(t) && t == s.(health := t.health) && id in s.health
    requires t.health[id] == s.health[id] || t.health[id] == Renewed(s, id, now)
    ensures Renewed(t, id, now) == Renewed(s, id, now)
  {
  }

  /** A candidate that repeats an account changes nothing. */
  lemma RefreshStep(s: Snapshot, t: Snapshot, cs: seq<Candidate>, c: Candidate, now: Time)
    requires Complete(s) && RefreshedFor(s, t, cs, now) && Managed(s, c)
    ensures Complete(t) && Complete(Reassess(t, s.byAuthId[c.key], now))
    ensures RefreshedFor(s, Reassess(t, s.byAuthId[c.key], now), cs + [c], now)
    ensures Assess(Reassess(t, s.byAuthId[c.key], now).health[s.byAuthId[c.key]],
                   s.byIdentity[s.byAuthId[c.key]].disabled, now)
      == Verdict(s, c, now)
  {
    var id := s.byAuthId[c.key];
    RenewTwice(s, t, id, now);
    var u := Reassess(t, id, now);
    assert u == t.(health := t.health[id := Renewed(s, id, now)], quota := t.quota[id := t.quota[id]]);
    assert u.quota == t.quota;
    forall i | 0 <= i < |cs + [c]| && Managed(s, (cs + [c])[i])
      ensures u.health[s.byAuthId[(cs + [c])[i].key]] == Renewed(s, s.byAuthId[(cs + [c])[i].key], now)
    {
      assert (cs + [c])[i] == if i < |cs| then cs[i] else c;
    }
  }

  class Router {
    var snapshot: Snapshot
    var stopped: bool
    const routing: RoutingState

    ghost predicate Valid()
      reads this, routing
    {
      Complete(snapshot) && routing.Valid()
    }

    /** A newly published snapshot starts with fresh cursors. */
    constructor (published: Snapshot)
      requires Complete(published)
      ensures Valid() && snapshot == published && !stopped && fresh(routing)
    {
      snapshot, stopped := published, false;
      routing := new RoutingState();
    }

    /** The first pass: refresh every managed candidate, and count the managed and the impaired. */
    method Survey(candidates: seq<Candidate>, now: Time) returns (unmanaged: bool, managed: nat, impaired: nat)
      requires Complete(snapshot)
      modifies this`snapshot
      ensures unmanaged <==> AnyUnmanaged(old(snapshot), candidates)
      ensures snapshot == old(snapshot).(health := snapshot.health)
      ensures !unmanaged ==>
        && RefreshedFor(old(snapshot), snapshot, candidates, now)
        && managed == CountManaged(old(snapshot), candidates)
        && impaired == CountImpaired(old(snapshot), candidates, now)
    {
      ghost var s := snapshot;
      unmanaged, managed, impaired := false, 0, 0;
      for i := 0 to |candidates|
        invariant Complete(snapshot) && RefreshedFor(s, snapshot, candidates[..i], now)
        invariant forall j | 0 <= j < i :: Managed(s, candidates[j]) || !candidates[j].recognized
        invariant !unmanaged && managed == CountManaged(s, candidates[..i])
        invariant impaired == CountImpaired(s, candidates[..i], now)
      {
        var c := candidates[i];
        assert candidates[..i + 1] == candidates[..i] + [c] && candidates[..i + 1][..i] == candidates[..i];
        if c.key !in snapshot.byAuthId {
          if c.recognized {
            return true, managed, impaired;
          }
        } else {
          var id := snapshot.byAuthId[c.key];
          RefreshStep(s, snapshot, candidates[..i], c, now);
          VerdictMeaning(s, c, now);
          snapshot := Reassess(snapshot, id, now);
          managed := managed + 1;
          if Assess(snapshot.health[id], snapshot.byIdentity[id].disabled, now).status != Healthy {
            impaired := impaired + 1;
          }
        }
      }
      assert candidates[..|candidates|] == candidates;
    }

    /** The second pass reads the stored health and reaches the same verdicts as the first. */
    method Collect(candidates: seq<Candidate>, now: Time, ghost s: Snapshot)
      returns (healthy: seq<string>, throttledUntil: Time)
      requires Complete(s) && RefreshedFor(s, snapshot, candidates, now)
      ensures healthy == HealthyIds(s, candidates, now) && throttledUntil == EarliestThrottle(s, candidates, now)
    {
      healthy, throttledUntil := [], ZERO_TIME;
      for i := 0 to |candidates|
        invariant healthy == HealthyIds(s, candidates[..i], now)
        invariant throttledUntil == EarliestThrottle(s, candidates[..i], now)
      {
        var c := candidates[i];
        assert candidates[..i + 1][..i] == candidates[..i];
        if c.key in snapshot.byAuthId {
          var id := snapshot.byAuthId[c.key];
          var health := Assess(snapshot.health[id], snapshot.byIdentity[id].disabled, now);
          assert health == Verdict(s, c, now);
          VerdictMeaning(s, c, now);
          if health.status == Healthy {
            healthy := healthy + [c.id];
          } else if health.status == Throttled {
            if throttledUntil == ZERO_TIME || health.resetAt < throttledUntil {
              throttledUntil := health.resetAt;
            }
          }
        }
      }
      assert candidates[..|candidates|] == candidates;
    }

    /**
     The pick. It refuses recognised credentials it does not manage, delegates exactly when all
     managed candidates are healthy, selects only a healthy managed candidate of the request, and
     says rate-limited exactly when none is healthy and some is throttled, announcing seconds
     that suffice for the earliest throttle to expire and no more. `now` was read before the lock was
     taken, so a throttle may have been set after it.
     */
    method Pick(candidates: seq<Candidate>, scope: string, session: Option<string -> int>, now: Time)
      returns (r: Response)
      requires Valid() && now > 0
      modifies this`snapshot, routing
      ensures snapshot == old(snapshot).(health := snapshot.health)
      ensures Complete(old(snapshot)) && Expected(stopped, old(snapshot), candidates, now, r)
      ensures r.Selected? && session.Some? ==>
        HealthyIds(old(snapshot), candidates, now) != []
          && r.id == Sticky(HealthyIds(old(snapshot), candidates, now), session.value)
      ensures r.Selected? && session.None? ==>
        var healthy, cursor := HealthyIds(old(snapshot), candidates, now), CursorOf(old(routing.cursors), scope);
        healthy != [] && 0 <= cursor && r.id == healthy[cursor % |healthy|]
      ensures routing.cursors
        == if r.Selected? && session.None? then Turn(old(routing.cursors), scope) else old(routing.cursors)
    {
      if stopped {
        return NotConfigured;
      }
      ghost var s := snapshot;
      var unmanaged, managed, impaired := Survey(candidates, now);
      CountsDecide(s, candidates, now);
      if unmanaged {
        return UnmanagedCandidate;
      }
      if managed == 0 {
        return NotHandled;
      }
      if impaired == 0 {
        return Delegate;
      }
      var healthy, throttledUntil := Collect(candidates, now, s);
      if healthy == [] && throttledUntil != ZERO_TIME {
        EarliestIsLeast(s, candidates, now);
        return RateLimited(RetrySeconds(throttledUntil - now));
      }
      if healthy == [] {
        return NoCapacity;
      }
      if session.Some? {
        var id := ChooseSticky(healthy, session.value);
        return Selected(id);
      }
      var id := routing.Next(scope, healthy);
      return Selected(id);
    }
  }

  /** Which response a request deserves. */
  ghost predicate Expected(stopped: bool, s: Snapshot, cs: seq<Candidate>, now: Time, r: Response)
    requires Complete(s)
  {
    var healthy, throttle := HealthyIds(s, cs, now), EarliestThrottle(s, cs, now);
    if stopped then r == NotConfigured
    else if AnyUnmanaged(s, cs) then r == UnmanagedCandidate
    else if !AnyManaged(s, cs) then r == NotHandled
    else if AllHealthy(s, cs, now) then r == Delegate
    else if healthy != [] then r.Selected? && r.id in healthy
    else if throttle == ZERO_TIME then r == NoCapacity
    else r.RateLimited? && r.seconds >= 1 && now + (r.seconds - 1) * SECOND < throttle <= now + r.seconds * SECOND
  }

  ghost predicate AnyOpen(s: Snapshot, cs: seq<Candidate>, now: Time)
    requires Complete(s)
  {
    exists i | 0 <= i < |cs| && Managed(s, cs[i]) :: Open(s, cs[i], now)
  }

  ghost predicate AnyWaiting(s: Snapshot, cs: seq<Candidate>, now: Time)
    requires Complete(s)
  {
    exists i | 0 <= i < |cs| && Managed(s, cs[i]) :: Waiting(s, cs[i], now)
  }

  /** The running minimum is the least deadline of a throttled candidate, and zero exactly when there is none. */
  lemma {:induction false} EarliestIsLeast(s: Snapshot, cs: seq<Candidate>, now: Time)
    requires Complete(s) && now > 0
    ensures var earliest := EarliestThrottle(s, cs, now);
      && (earliest != ZERO_TIME <==> AnyWaiting(s, cs, now)) && (earliest != ZERO_TIME ==> earliest > now)
      && (forall i | 0 <= i < |cs| && Managed(s, cs[i]) && Waiting(s, cs[i], now) ::
            earliest <= ThrottleOf(s, cs[i]))
      && (earliest != ZERO_TIME ==> exists i | 0 <= i < |cs| && Managed(s, cs[i]) ::
            Waiting(s, cs[i], now) && ThrottleOf(s, cs[i]) == earliest)
  {
    if cs != [] {
      var init, last := cs[..|cs| - 1], cs[|cs| - 1];
      EarliestIsLeast(s, init, now);
      assert forall i | 0 <= i < |cs| :: cs[i] == if i < |init| then init[i] else last;
    }
  }

  lemma {:induction false} SomeHealthy(s: Snapshot, cs: seq<Candidate>, now: Time)
    requires Complete(s)
    ensures HealthyIds(s, cs, now) != [] <==> AnyOpen(s, cs, now)
  {
    if cs != [] {
      var init, last := cs[..|cs| - 1], cs[|cs| - 1];
      SomeHealthy(s, init, now);
      assert forall i | 0 <= i < |cs| :: cs[i] == if i < |init| then init[i] else last;
    }
  }

  /** Some throttle has expired that long after now. */
  ghost predicate Frees(s: Snapshot, cs: seq<Candidate>, now: Time, wait: int)
    requires Complete(s)
  {
    exists i | 0 <= i < |cs| && Managed(s, cs[i]) ::
      Waiting(s, cs[i], now) && ThrottleOf(s, cs[i]) <= now + wait
  }

  /**
   What a response says about the candidates, without the passes that found it out: delegation
   means that all are healthy, rate-limited that none is healthy and some is throttled, and after
   the announced seconds, but not a second sooner, the first of those throttles has expired; they are
   at most sixty exactly when one expires within a minute of the time the pick read.
   */
  lemma ResponseMeaning(s: Snapshot, cs: seq<Candidate>, now: Time, r: Response)
    requires Complete(s) && now > 0 && Expected(false, s, cs, now, r)
    requires !AnyUnmanaged(s, cs) && AnyManaged(s, cs)
    ensures r == Delegate <==> AllHealthy(s, cs, now)
    ensures r.Selected? <==> AnyOpen(s, cs, now) && !AllHealthy(s, cs, now)
    ensures r.RateLimited? <==> !AnyOpen(s, cs, now) && AnyWaiting(s, cs, now)
    ensures r == NoCapacity <==> !AnyOpen(s, cs, now) && !AnyWaiting(s, cs, now)
    ensures r.RateLimited? ==> Frees(s, cs, now, r.seconds * SECOND)
    ensures r.RateLimited? ==> r.seconds >= 1 && (r.seconds <= 60 <==> Frees(s, cs, now, BACKOFF_CAP))
    ensures r.RateLimited? ==>
      forall i | 0 <= i < |cs| && Managed(s, cs[i]) && Waiting(s, cs[i], now) ::
        now + (r.seconds - 1) * SECOND < ThrottleOf(s, cs[i])
  {
    EarliestIsLeast(s, cs, now);
    SomeHealthy(s, cs, now);
  }

  // ---------------------------------------------------------------- impaired accounts

  /** The response hands a request to a credential of the account, or leaves the choice to the host. */
  ghost predicate MayReach(s: Snapshot, cs: seq<Candidate>, r: Response, id: string) {
    exists i | 0 <= i < |cs| && Managed(s, cs[i]) ::
      s.byAuthId[cs[i].key] == id && (r == Delegate || r == Selected(cs[i].id))
  }

  /** Equal ids have equal trimmed forms. */
  ghost predicate Keyed(cs: seq<Candidate>) {
    forall i, j | 0 <= i < |cs| && 0 <= j < |cs| && cs[i].id == cs[j].id :: cs[i].key == cs[j].key
  }

  lemma {:induction false} HealthyIdsAreHealthy(s: Snapshot, cs: seq<Candidate>, now: Time, id: string)
    requires Complete(s) && id in HealthyIds(s, cs, now)
    ensures exists i | 0 <= i < |cs| && Managed(s, cs[i]) :: cs[i].id == id && Open(s, cs[i], now)
  {
    var init, last := cs[..|cs| - 1], cs[|cs| - 1];
    if id in HealthyIds(s, init, now) {
      HealthyIdsAreHealthy(s, init, now, id);
      var i :| 0 <= i < |init| && Managed(s, init[i]) && init[i].id == id && Open(s, init[i], now);
      assert cs[i] == init[i];
    }
  }

  /** A pick never reaches an account that is not healthy. */
  lemma UnhealthyUnreachable(stopped: bool, s: Snapshot, cs: seq<Candidate>, now: Time, r: Response, id: string)
    requires Complete(s) && Keyed(cs) && Expected(stopped, s, cs, now, r)
    requires forall i | 0 <= i < |cs| && Managed(s, cs[i]) && s.byAuthId[cs[i].key] == id ::
      !Open(s, cs[i], now)
    ensures !MayReach(s, cs, r, id)
  {
    if r.Selected? {
      HealthyIdsAreHealthy(s, cs, now, r.id);
    }
  }

  /** No throttle lasts more than a minute from the clock. */
  ghost predicate ThrottlesBounded(s: Snapshot, clock: Time) {
    forall id | id in s.health :: s.health[id].throttledUntil <= clock + BACKOFF_CAP
  }

  lemma {:induction false} EarliestBounded(s: Snapshot, cs: seq<Candidate>, now: Time, clock: Time)
    requires Complete(s) && ThrottlesBounded(s, clock) && 0 < now <= clock
    ensures EarliestThrottle(s, cs, now) <= clock + BACKOFF_CAP
  {
    if cs != [] {
      EarliestBounded(s, cs[..|cs| - 1], now, clock);
    }
  }

  lemma GoodBounded(w: World)
    requires Good(w)
    ensures Complete(w.live) && ThrottlesBounded(w.live, w.clock) && w.clock > 0
  {
  }

  /** The seconds a pick announces exceed sixty by no more than the time that has passed since it read the clock. */
  lemma AnnouncedBounded(stopped: bool, s: Snapshot, cs: seq<Candidate>, read: Time, clock: Time, r: Response)
    requires Complete(s) && ThrottlesBounded(s, clock) && 0 < read <= clock
    requires Expected(stopped, s, cs, read, r) && r.RateLimited?
    ensures r.seconds >= 1 && (r.seconds - 1) * SECOND < BACKOFF_CAP + (clock - read)
    ensures read == clock ==> r.seconds <= 60
  {
    EarliestBounded(s, cs, read, clock);
  }

  /** Every world the protocol can reach is ready for a pick, whenever it read the clock. */
  lemma ReadyToPick(w: World, read: Time, cs: seq<Candidate>, r: Response)
    requires Good(w) && Reading(read, w.clock)
    ensures Complete(w.live) && read > 0
    ensures Expected(w.stopped, w.live, cs, read, r) && r.RateLimited? ==>
      && r.seconds >= 1 && (r.seconds - 1) * SECOND < BACKOFF_CAP + (w.clock - read)
      && (read == w.clock ==> r.seconds <= 60)
  {
    GoodBounded(w);
    if Expected(w.stopped, w.live, cs, read, r) && r.RateLimited? {
      AnnouncedBounded(w.stopped, w.live, cs, read, w.clock, r);
    }
  }

  /** Whatever is wrong with an account, be it disabled, suspended, exhausted, out of capacity or throttled. */
  ghost predicate Impaired(s: Snapshot, id: string, read: Time)
    requires Complete(s)
  {
    id in s.byIdentity ==>
      || s.byIdentity[id].disabled || s.health[id].suspendedUntil > read || s.health[id].exhaustedUntil > read
      || !HasCapacity(s, id, read) || s.health[id].throttledUntil > read
  }

  lemma ImpairedUnreachable(stopped: bool, s: Snapshot, cs: seq<Candidate>, read: Time, r: Response, id: string)
    requires Complete(s) && Keyed(cs) && Impaired(s, id, read) && Expected(stopped, s, cs, read, r)
    ensures !MayReach(s, cs, r, id)
  {
    UnhealthyUnreachable(stopped, s, cs, read, r, id);
  }

  /**
   After an authentication failure, or a 429 that exhausts the account, no pick that read a time
   before the end of the suspension or exhaustion selects a credential of the account, nor delegates
   a request that contains one, whatever happens in between.
   */
  lemma NoPickBeforeDeadline(w: World, record: UsageRecord, now: Time, f: Fact, admitted: World, steps: seq<Step>,
                             cs: seq<Candidate>, read: Time, r: Response)
    requires Failing(w, record, now, f) && admitted == AfterUsage(w, record, now)
    requires forall i | 0 <= i < |steps| :: Admissible(steps[i], f)
    requires var end := Run(Next, admitted, steps);
      Keyed(cs) && read < f.until && Complete(end.live) && Expected(end.stopped, end.live, cs, read, r)
    ensures !MayReach(Run(Next, admitted, steps).live, cs, r, f.id)
  {
    DeadlineHolds(w, record, now, f, admitted, steps);
    var end := Run(Next, admitted, steps);
    ImpairedUnreachable(end.stopped, end.live, cs, read, r, f.id);
  }

  /**
   The same in every later process, once the handler's write reported success: its picks read a
   time not before its start.
   */
  lemma NoPickBeforeDeadlineAfterRestart(w: World, record: UsageRecord, now: Time, f: Fact, admitted: World,
                                         during: seq<Step>, later: seq<Step>, restart: Step, recent: seq<Step>,
                                         cs: seq<Candidate>, read: Time, r: Response)
    requires Failing(w, record, now, f) && admitted == AfterUsage(w, record, now)
    requires forall i | 0 <= i < |during| :: Meanwhile(during[i], f)
    requires forall i | 0 <= i < |later| :: Respects(later[i], f)
    requires restart.Restart? && Respects(restart, f) && forall i | 0 <= i < |recent| :: Admissible(recent[i], f)
    requires var crashed := Run(Next, admitted, Reported(during, later));
      var end := Run(Next, Next(crashed, restart), recent);
      && Keyed(cs) && crashed.clock <= read < f.until
      && Complete(end.live) && Expected(end.stopped, end.live, cs, read, r)
    ensures !MayReach(Run(Next, Next(Run(Next, admitted, Reported(during, later)), restart), recent).live, cs, r, f.id)
  {
    DeadlineSurvivesRestart(w, record, now, f, admitted, during, later, restart, recent);
    var end := Run(Next, Next(Run(Next, admitted, Reported(during, later)), restart), recent);
    ImpairedUnreachable(end.stopped, end.live, cs, read, r, f.id);
  }
}
