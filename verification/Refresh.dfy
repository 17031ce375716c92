/**
 The single flight of forced refreshes (internal/providers/zai/management.go): one leader per
 generation polls, the others wait for its channel and take its error.
 */
module Refresh {
  import opened Common
  import opened Machine

  /** A refreshGeneration object; `id` is its identity. */
  datatype Flight = Flight(id: nat, generation: nat)

  datatype World = World(
    generation: nat,
    current: Option<Flight>,     // the runtime's current refresh
    leading: set<Flight>,        // leaders still polling
    closing: map<Flight, int>,   // error recorded, channel not yet closed
    closed: map<Flight, int>,    // channel closed, with the error its waiters read
    waiting: map<nat, Flight>,   // followers, by caller
    answers: map<nat, int>,      // what followers that waited to completion returned
    nextId: nat)

  datatype Step =
    | Begin(caller: nat)
    | Commit                          // a new snapshot generation is published
    | Finish(flight: Flight, error: int)  // endRefresh under the lock
    | Close(flight: Flight)           // and its channel close after unlocking
    | Return(caller: nat)             // a follower whose channel is closed

  ghost predicate Enabled(w: World, step: Step) {
    match step
    case Begin(caller) => caller !in w.waiting
    case Commit => true
    case Finish(flight, _) => flight in w.leading
    case Close(flight) => flight in w.closing
    case Return(caller) => caller in w.waiting && w.waiting[caller] in w.closed && caller !in w.answers
  }

  ghost function Next(w: World, step: Step): World {
    if !Enabled(w, step) then w
    else match step
      case Begin(caller) =>
        if w.current.Some? && w.current.value.generation == w.generation
        then w.(waiting := w.waiting[caller := w.current.value])
        else
          var flight := Flight(w.nextId, w.generation);
          w.(current := Some(flight), leading := w.leading + {flight}, nextId := w.nextId + 1)
      case Commit => w.(generation := w.generation + 1)
      case Finish(flight, error) =>
        w.(leading := w.leading - {flight}, closing := w.closing[flight := error],
           current := if w.current == Some(flight) then None else w.current)
      case Close(flight) => w.(closing := w.closing - {flight}, closed := w.closed[flight := w.closing[flight]])
      case Return(caller) => w.(answers := w.answers[caller := w.closed[w.waiting[caller]]])
  }

  /** At most one leader per generation, and `current` is the live generation's leader if there is one. */
  ghost predicate OneLeader(w: World) {
    && (forall f, g | f in w.leading && g in w.leading && f.generation == g.generation :: f == g)
    && (forall f | f in w.leading ::
          f.generation <= w.generation && (f.generation == w.generation ==> w.current == Some(f)))
    && (w.current.Some? ==> w.current.value in w.leading)
  }

  ghost predicate Known(w: World, f: Flight) {
    f in w.leading || f in w.closing || f in w.closed
  }

  /** A flight is in exactly one of its three phases, and the next identity is unused. */
  ghost predicate OnePhase(w: World) {
    && (forall f | Known(w, f) :: f.id < w.nextId)
    && w.leading !! w.closing.Keys && w.leading !! w.closed.Keys && w.closing.Keys !! w.closed.Keys
  }

  /** Every follower waits for a flight that exists, and has returned, if at all, its own leader's error. */
  ghost predicate FollowersServed(w: World) {
    && (forall c | c in w.waiting :: Known(w, w.waiting[c]))
    && (forall c | c in w.answers ::
          c in w.waiting && w.waiting[c] in w.closed && w.answers[c] == w.closed[w.waiting[c]])
  }

  ghost predicate Sound(w: World) {
    OneLeader(w) && OnePhase(w) && FollowersServed(w)
  }

  lemma NextOneLeader(w: World, step: Step)
    requires OneLeader(w)
    ensures OneLeader(Next(w, step))
  {
  }

  lemma NextOnePhase(w: World, step: Step)
    requires OnePhase(w)
    ensures OnePhase(Next(w, step))
  {
    var next := Next(w, step);
    assert forall f | Known(next, f) :: Known(w, f) || f == Flight(w.nextId, w.generation);
    if !step.Begin? {
      assert next.nextId == w.nextId;
    }
  }

  lemma NextFollowersServed(w: World, step: Step)
    requires Sound(w)
    ensures FollowersServed(Next(w, step))
  {
    assert forall f | Known(w, f) :: Known(Next(w, step), f);
  }

  /** A closed channel is not closed again, and the error its followers read does not change. */
  lemma NextKeepsClosed(w: World, step: Step, flight: Flight)
    requires OnePhase(w) && flight in w.closed
    ensures var next := Next(w, step);
      flight in next.closed && next.closed[flight] == w.closed[flight]
  {
  }

  /** Every run begins with no refresh at all. */
  lemma IdleSound(generation: nat)
    ensures Sound(World(generation, None, {}, map[], map[], map[], map[], 0))
  {
  }

  /** Over every interleaving of refreshes, commits and completions. */
  lemma SingleFlight(w: World, steps: seq<Step>)
    requires Sound(w)
    ensures Sound(Run(Next, w, steps))
  {
    forall w, s: Step | Sound(w) ensures Sound(Next(w, s)) {
      NextOneLeader(w, s);
      NextOnePhase(w, s);
      NextFollowersServed(w, s);
    }
    RunKeeps(Next, Sound, _ => true, w, steps);
  }

  /** Once a channel is closed no run closes it again or changes the error its followers read. */
  lemma ClosedOnce(w: World, steps: seq<Step>, flight: Flight)
    requires Sound(w) && flight in w.closed
    ensures var end := Run(Next, w, steps);
      flight in end.closed && end.closed[flight] == w.closed[flight] && flight !in end.closing && flight !in end.leading
  {
    var error := w.closed[flight];
    var inv := (x: World) => OnePhase(x) && flight in x.closed && x.closed[flight] == error;
    forall x, s: Step | inv(x) ensures inv(Next(x, s)) {
      NextOnePhase(x, s);
      NextKeepsClosed(x, s, flight);
    }
    RunKeeps(Next, inv, _ => true, w, steps);
  }

  /** Who polls for the live generation. */
  ghost predicate Leads(w: World, f: Flight) {
    f in w.leading && f.generation == w.generation
  }

  /**
   A caller joins the flight of the live generation if there is one, and starts one otherwise; a flight
   of a replaced generation is never joined.
   */
  lemma BeginJoins(w: World, caller: nat)
    requires Sound(w) && caller !in w.waiting
    ensures var next := Next(w, Begin(caller));
      && (forall f | Leads(w, f) :: next == w.(waiting := w.waiting[caller := f]))
      && ((forall f | f in w.leading :: f.generation != w.generation) ==>
            && next.waiting == w.waiting
            && exists f :: Leads(next, f) && f !in w.leading && next.leading == w.leading + {f}
                             && next.current == Some(f))
  {
    var next := Next(w, Begin(caller));
    if w.current.Some? && w.current.value.generation == w.generation {
      assert Leads(w, w.current.value);
    } else {
      var f := Flight(w.nextId, w.generation);
      assert Leads(next, f) && next.leading == w.leading + {f};
      assert !Known(w, f);
    }
  }

  /** The flight's error is on its way to its followers, or with them. */
  ghost predicate Delivers(w: World, flight: Flight, error: int) {
    (flight in w.closing && w.closing[flight] == error) || (flight in w.closed && w.closed[flight] == error)
  }

  lemma NextDelivers(w: World, step: Step, flight: Flight, error: int)
    requires OnePhase(w) && Delivers(w, flight, error)
    ensures Delivers(Next(w, step), flight, error)
  {
  }

  lemma NextStillWaits(w: World, step: Step, caller: nat)
    requires caller in w.waiting
    ensures caller in Next(w, step).waiting && Next(w, step).waiting[caller] == w.waiting[caller]
  {
  }

  /** Whoever has joined a flight returns the error its leader ended with, and no other, whatever else happens. */
  lemma LeadersErrorReturned(w: World, flight: Flight, error: int, caller: nat, steps: seq<Step>)
    requires Sound(w) && flight in w.leading && caller in w.waiting && w.waiting[caller] == flight
    ensures var end := Run(Next, Next(w, Finish(flight, error)), steps);
      && Delivers(end, flight, error) && caller in end.waiting && end.waiting[caller] == flight
      && (caller in end.answers ==> end.answers[caller] == error)
  {
    var inv := (x: World) => Sound(x) && Delivers(x, flight, error)
      && caller in x.waiting && x.waiting[caller] == flight;
    forall x, s: Step | Sound(x) ensures Sound(Next(x, s)) {
      NextOneLeader(x, s);
      NextOnePhase(x, s);
      NextFollowersServed(x, s);
    }
    forall x, s: Step | inv(x) ensures inv(Next(x, s)) {
      NextDelivers(x, s, flight, error);
      NextStillWaits(x, s, caller);
    }
    RunKeeps(Next, inv, _ => true, Next(w, Finish(flight, error)), steps);
  }
}
