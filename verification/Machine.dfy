/** Runs of a deterministic step function, and what they keep. */
module Machine {

  function Run<W, S>(next: (W, S) -> W, w: W, steps: seq<S>): W
    decreases |steps|
  {
    if steps == [] then w else Run(next, next(w, steps[0]), steps[1..])
  }

  /** What every admissible step keeps, every run of admissible steps keeps. */
  lemma {:induction false} RunKeeps<W(!new), S(!new)>(
      next: (W, S) -> W, inv: W -> bool, admissible: S -> bool, w: W, steps: seq<S>)
    requires inv(w) && forall i | 0 <= i < |steps| :: admissible(steps[i])
    requires forall w, s | inv(w) && admissible(s) :: inv(next(w, s))
    ensures inv(Run(next, w, steps))
    decreases |steps|
  {
    if steps != [] {
      RunKeeps(next, inv, admissible, next(w, steps[0]), steps[1..]);
    }
  }

  /** Two machines that agree on every admissible step inside an invariant agree on every run from there. */
  lemma {:induction false} RunsAgree<W(!new), S(!new)>(
      next: (W, S) -> W, other: (W, S) -> W, inv: W -> bool, admissible: S -> bool, w: W, steps: seq<S>)
    requires inv(w) && forall i | 0 <= i < |steps| :: admissible(steps[i])
    requires forall w, s | inv(w) && admissible(s) :: inv(next(w, s)) && next(w, s) == other(w, s)
    ensures Run(next, w, steps) == Run(other, w, steps)
    decreases |steps|
  {
    if steps != [] {
      RunsAgree(next, other, inv, admissible, next(w, steps[0]), steps[1..]);
    }
  }

  lemma {:induction false} RunSplit<W, S>(next: (W, S) -> W, w: W, a: seq<S>, b: seq<S>)
    ensures Run(next, w, a + b) == Run(next, Run(next, w, a), b)
    decreases |a|
  {
    if a == [] {
      assert a + b == b;
    } else {
      assert (a + b)[0] == a[0] && (a + b)[1..] == a[1..] + b;
      RunSplit(next, next(w, a[0]), a[1..], b);
    }
  }

  /** What holds of the start and no steps, and extends by every step of the run, holds of its end and all steps. */
  lemma {:induction false} RunTraces<W(!new), S(!new)>(
      next: (W, S) -> W, inv: (W, seq<S>) -> bool, w: W, steps: seq<S>)
    requires inv(w, [])
    requires forall w, done, s | s in steps && inv(w, done) :: inv(next(w, s), done + [s])
    ensures inv(Run(next, w, steps), steps)
    decreases |steps|
  {
    if steps != [] {
      var init, last := steps[..|steps| - 1], steps[|steps| - 1];
      assert steps == init + [last] && last in steps && forall s | s in init :: s in steps;
      RunTraces(next, inv, w, init);
      RunSplit(next, w, init, [last]);
      RunCons(next, Run(next, w, init), last, []);
    }
  }

  lemma RunCons<W, S>(next: (W, S) -> W, w: W, s: S, rest: seq<S>)
    ensures Run(next, w, [s] + rest) == Run(next, next(w, s), rest)
  {
    assert ([s] + rest)[1..] == rest;
  }
}
