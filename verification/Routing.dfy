/** How a healthy candidate is chosen (internal/providers/zai/scheduler.go): rendezvous stickiness and round robin. */
module Routing {
  import opened Common

  const MAX_ROUTING_SCOPES := 1024

  // ---------------------------------------------------------------- stickiness, for any score function

  /** The first candidate with the highest score. */
  function Sticky(ids: seq<string>, score: string -> int): (winner: string)
    requires ids != []
    ensures winner in ids && forall id | id in ids :: score(id) <= score(winner)
  {
    var last := ids[|ids| - 1];
    if |ids| == 1 then last
    else
      assert ids == ids[..|ids| - 1] + [last];
      var winner := Sticky(ids[..|ids| - 1], score);
      if score(last) > score(winner) then last else winner
  }

  method ChooseSticky(ids: seq<string>, score: string -> int) returns (selected: string)
    requires ids != []
    ensures selected == Sticky(ids, score)
  {
    selected := ids[0];
    var highest := score(selected);
    for i := 1 to |ids|
      invariant selected == Sticky(ids[..i], score) && highest == score(selected)
    {
      assert ids[..i + 1][..i] == ids[..i];
      if score(ids[i]) > highest {
        selected, highest := ids[i], score(ids[i]);
      }
    }
    assert ids[..|ids|] == ids;
  }

  function Keep(ids: seq<string>, kept: set<string>): (r: seq<string>)
    ensures forall id :: id in r <==> id in ids && id in kept
  {
    if ids == [] then []
    else
      assert ids == ids[..|ids| - 1] + [ids[|ids| - 1]];
      Keep(ids[..|ids| - 1], kept) + if ids[|ids| - 1] in kept then [ids[|ids| - 1]] else []
  }

  /** Losing any candidates other than the winner never moves the session. */
  lemma {:induction false} StickyAfterLoss(ids: seq<string>, kept: set<string>, score: string -> int)
    requires ids != [] && Sticky(ids, score) in kept
    ensures Keep(ids, kept) != [] && Sticky(Keep(ids, kept), score) == Sticky(ids, score)
  {
    var init, last := ids[..|ids| - 1], ids[|ids| - 1];
    var rest := Keep(init, kept);
    if |ids| > 1 && Sticky(init, score) in kept {
      StickyAfterLoss(init, kept, score);
    }
    if last in kept {
      assert (rest + [last])[..|rest|] == rest;
    } else {
      assert rest + [] == rest;
    }
  }

  lemma StickyAppend(ids: seq<string>, last: string, score: string -> int)
    ensures Sticky(ids + [last], score) ==
      if ids != [] && score(last) <= score(Sticky(ids, score)) then Sticky(ids, score) else last
  {
    assert (ids + [last])[..|ids|] == ids;
  }

  /** A newcomer, wherever it appears, either leaves the session where it was or takes it over. */
  lemma {:induction false} StickyAfterGain(before: seq<string>, newcomer: string, rest: seq<string>,
                                           score: string -> int)
    requires before + rest != []
    ensures Sticky(before + [newcomer] + rest, score) in {newcomer, Sticky(before + rest, score)}
    decreases |rest|
  {
    if rest == [] {
      assert before + rest == before && before + [newcomer] + rest == before + [newcomer];
      StickyAppend(before, newcomer, score);
    } else {
      var init, last := rest[..|rest| - 1], rest[|rest| - 1];
      var without, with := before + init, before + [newcomer] + init;
      assert before + rest == without + [last] && before + [newcomer] + rest == with + [last];
      StickyAppend(without, last, score);
      StickyAppend(with, last, score);
      if without == [] {
        assert with == [newcomer];
      } else {
        StickyAfterGain(before, newcomer, init, score);
        assert Sticky(without, score) in with;
      }
    }
  }

  // ---------------------------------------------------------------- round robin

  type Cursors = map<string, int>

  predicate Overflows(cursors: Cursors, scope: string) {
    scope !in cursors && |cursors| >= MAX_ROUTING_SCOPES
  }

  function CursorOf(cursors: Cursors, scope: string): int {
    if scope in cursors then cursors[scope] else 0
  }

  /** One round-robin pick: a full table is cleared before a new scope enters it; a cursor is a uint64. */
  function Turn(cursors: Cursors, scope: string): Cursors {
    var table: Cursors := if Overflows(cursors, scope) then map[] else cursors;
    table[scope := (CursorOf(table, scope) + 1) % TWO_64]
  }

  class RoutingState {
    var cursors: Cursors

    ghost predicate Valid()
      reads this
    {
      |cursors| <= MAX_ROUTING_SCOPES && forall scope | scope in cursors :: 0 <= cursors[scope] < TWO_64
    }

    constructor ()
      ensures Valid() && cursors == map[]
    {
      cursors := map[];
    }

    method Next(scope: string, candidates: seq<string>) returns (selected: string)
      requires Valid() && candidates != []
      modifies this
      ensures Valid() && cursors == Turn(old(cursors), scope)
      ensures 0 <= CursorOf(old(cursors), scope) && selected == candidates[CursorOf(old(cursors), scope) % |candidates|]
    {
      if scope !in cursors && |cursors| >= MAX_ROUTING_SCOPES {
        cursors := map[];
      }
      var cursor := if scope in cursors then cursors[scope] else 0;
      selected := candidates[cursor % |candidates|];
      TurnBounded(cursors, scope);
      cursors := cursors[scope := (cursor + 1) % TWO_64];
    }
  }

  lemma TurnBounded(cursors: Cursors, scope: string)
    requires |cursors| <= MAX_ROUTING_SCOPES
    ensures |Turn(cursors, scope)| <= MAX_ROUTING_SCOPES
  {
    if scope in cursors {
      assert Turn(cursors, scope).Keys == cursors.Keys;
    } else if |cursors| < MAX_ROUTING_SCOPES {
      assert Turn(cursors, scope).Keys == cursors.Keys + {scope};
    } else {
      assert Turn(cursors, scope).Keys == {scope};
    }
  }

  /** The cursors that the picks of `scope` find, interleaved with those of other scopes. */
  function Visits(cursors: Cursors, picks: seq<string>, scope: string): seq<int>
    decreases |picks|
  {
    if picks == [] then []
    else
      (if picks[0] == scope then [CursorOf(cursors, scope)] else [])
        + Visits(Turn(cursors, picks[0]), picks[1..], scope)
  }

  /** The positions those picks choose among n candidates. */
  function Positions(cursors: Cursors, picks: seq<string>, scope: string, n: int): seq<int>
    requires n > 0
  {
    var visits := Visits(cursors, picks, scope);
    seq(|visits|, i requires 0 <= i < |visits| => visits[i] % n)
  }

  ghost predicate NeverCleared(cursors: Cursors, picks: seq<string>)
    decreases |picks|
  {
    picks == [] || (!Overflows(cursors, picks[0]) && NeverCleared(Turn(cursors, picks[0]), picks[1..]))
  }

  /** The position a 64-bit cursor chooses after so many increments in all. */
  function PositionAt(increments: int, n: int): (position: int)
    requires n > 0
    ensures 0 <= position < n
  {
    increments % TWO_64 % n
  }

  /** A pick of a scope advances its cursor and no other. */
  lemma TurnCursor(cursors: Cursors, pick: string, scope: string)
    requires !Overflows(cursors, pick)
    ensures CursorOf(Turn(cursors, pick), scope)
      == if pick == scope then (CursorOf(cursors, scope) + 1) % TWO_64 else CursorOf(cursors, scope)
  {
  }

  /** As long as the table is not cleared, a scope's cursor counts its picks in 64 bits, whatever other scopes do. */
  lemma {:induction false} VisitsAdvance(cursors: Cursors, picks: seq<string>, scope: string, i: nat)
    requires NeverCleared(cursors, picks) && 0 <= CursorOf(cursors, scope) < TWO_64
    requires i < |Visits(cursors, picks, scope)|
    ensures Visits(cursors, picks, scope)[i] == (CursorOf(cursors, scope) + i) % TWO_64
    decreases |picks|
  {
    var start, rest := CursorOf(cursors, scope), Visits(Turn(cursors, picks[0]), picks[1..], scope);
    if picks[0] != scope {
      assert Visits(cursors, picks, scope) == rest;
      assert rest[i] == (start + i) % TWO_64 by {
        TurnCursor(cursors, picks[0], scope);
        VisitsAdvance(Turn(cursors, picks[0]), picks[1..], scope, i);
      }
    } else if i > 0 {
      assert Visits(cursors, picks, scope)[i] == rest[i - 1];
      assert rest[i - 1] == ((start + 1) % TWO_64 + (i - 1)) % TWO_64 by {
        TurnCursor(cursors, picks[0], scope);
        VisitsAdvance(Turn(cursors, picks[0]), picks[1..], scope, i - 1);
      }
    }
  }

  lemma ModShift(start: int, position: int, n: int)
    requires n > 0 && 0 <= position < n
    ensures (start + (position - start) % n) % n == position
  {
    var q := (position - start) / n;
    var r := (position - start) % n;
    assert position - start == q * n + r;
    assert start + r == position - q * n == position + (-q) * n;
    ModPeriod(position, -q, n);
  }

  lemma {:induction false} ModPeriod(r: int, q: int, n: int)
    requires n > 0 && 0 <= r < n
    ensures (r + q * n) % n == r
  {
    var m := (r + q * n) / n;
    assert (r + q * n) % n == (r + q * n) - m * n;
    assert m == q by {
      var d := (r + q * n) % n;
      assert 0 <= d < n;
      assert r - d == (m - q) * n;
      SmallMultiple(m - q, n, r - d);
    }
  }

  lemma SmallMultiple(k: int, n: int, x: int)
    requires n > 0 && x == k * n && -n < x < n
    ensures k == 0
  {
    if k >= 1 {
      MulAtLeast(k, n);
    } else if k <= -1 {
      MulAtLeast(-k, n);
    }
  }

  lemma MulAtLeast(k: int, n: int)
    requires k >= 1 && n > 0
    ensures k * n >= n && (-k) * n <= -n
  {
  }

  lemma SameResidue(a: int, b: int, n: int)
    requires n > 0 && a % n == b % n && -n < a - b < n
    ensures a == b
  {
    assert a == (a / n) * n + a % n;
    assert b == (b / n) * n + b % n;
    assert a - b == (a / n - b / n) * n;
    SmallMultiple(a / n - b / n, n, a - b);
  }

  /** Every one of n positions, exactly once. */
  ghost predicate EachOnce(positions: seq<int>, n: int) {
    && |positions| == n
    && (forall position | 0 <= position < n :: position in positions)
    && (forall i, j | 0 <= i < j < n :: positions[i] != positions[j])
  }

  /** Consecutive residues are a permutation. */
  lemma ResiduesEachOnce(start: int, n: int, positions: seq<int>)
    requires n > 0 && |positions| == n && forall j: nat | j < n :: positions[j] == (start + j) % n
    ensures EachOnce(positions, n)
  {
    forall position | 0 <= position < n ensures position in positions {
      var i := (position - start) % n;
      ModShift(start, position, n);
      assert positions[i] == position;
    }
    forall i, j | 0 <= i < j < n ensures positions[i] != positions[j] {
      if positions[i] == positions[j] {
        SameResidue(start + i, start + j, n);
      }
    }
  }

  lemma ModAdd(x: int, k: int, n: int)
    requires n > 0
    ensures (x + k * n) % n == x % n
  {
    var q, r := x / n, x % n;
    assert x + k * n == r + (q + k) * n;
    ModPeriod(r, q + k, n);
  }

  /** Where n divides 2^64, wrapping does not change the residue. */
  lemma WrapKeepsResidue(x: int, n: int)
    requires n > 0 && TWO_64 % n == 0
    ensures x % TWO_64 % n == x % n
  {
    var m, k := TWO_64 / n, x / TWO_64;
    assert TWO_64 == m * n;
    assert x == x % TWO_64 + k * TWO_64;
    Associate(k, m, n);
    ModAdd(x % TWO_64, k * m, n);
  }

  lemma Associate(k: int, m: int, n: int)
    ensures k * (m * n) == (k * m) * n
  {
  }

  /** The last positions before the wrap, counted back from 2^64. */
  lemma BeforeWrap(k: int, n: int)
    requires n > 0 && 0 < k <= TWO_64 % n && k <= TWO_64
    ensures PositionAt(TWO_64 - k, n) == TWO_64 % n - k
  {
    var q, r := TWO_64 / n, TWO_64 % n;
    assert TWO_64 - k == r - k + q * n;
    ModPeriod(r - k, q, n);
  }

  /** After the wrap the positions count up from zero, and do not reach the last one in fewer than n picks. */
  lemma AfterWrap(x: int, n: int)
    requires TWO_64 <= x && n > 0 && x - TWO_64 < n - 1
    ensures PositionAt(x, n) != n - 1
  {
    var c := x % TWO_64;
    assert 0 <= c <= x - TWO_64;
    ModPeriod(c, 0, n);
  }

  lemma WrapIsZero(n: int)
    requires n > 0
    ensures PositionAt(TWO_64, n) == 0
  {
  }

  /** Enough picks remain before the wrap: the first position is picked there and again at the wrap. */
  lemma PickedTwice(start: int, n: int, positions: seq<int>)
    requires 0 <= start < TWO_64 < start + n && 0 < TWO_64 % n <= TWO_64 - start
    requires |positions| == n && forall j: nat | j < n :: positions[j] == PositionAt(start + j, n)
    ensures !EachOnce(positions, n)
  {
    var r, left := TWO_64 % n, TWO_64 - start;
    assert positions[left - r] == PositionAt(TWO_64 - r, n) == 0 by {
      assert start + (left - r) == TWO_64 - r;
      BeforeWrap(r, n);
    }
    assert positions[left] == PositionAt(start + left, n) == 0 by {
      WrapIsZero(n);
    }
  }

  /** Too few remain: the last position is picked neither before the wrap nor after it. */
  lemma NeverPicked(start: int, n: int, j: nat)
    requires 0 <= start < TWO_64 < start + n && TWO_64 - start < TWO_64 % n && j < n
    ensures PositionAt(start + j, n) != n - 1
  {
    if start + j < TWO_64 {
      BeforeWrap(TWO_64 - start - j, n);
    } else {
      AfterWrap(start + j, n);
    }
  }

  /** If the cursor wraps before the n-th pick and n does not divide 2^64, some position is picked twice or never. */
  lemma WrapUnfair(start: int, n: int, positions: seq<int>)
    requires 0 <= start < TWO_64 < start + n && TWO_64 % n != 0
    requires |positions| == n && forall j: nat | j < n :: positions[j] == PositionAt(start + j, n)
    ensures !EachOnce(positions, n)
  {
    if TWO_64 % n <= TWO_64 - start {
      PickedTwice(start, n, positions);
    } else {
      forall j: nat | j < n ensures positions[j] != n - 1 {
        NeverPicked(start, n, j);
      }
      assert n - 1 !in positions;
    }
  }

  /**
   Fairness. Of n picks of one scope over the same n candidates, interleaved with picks of other
   scopes and with no clearing of the table in between, every position is chosen exactly once if
   and only if the 64-bit cursor does not wrap before the last of them or n divides 2^64.
   */
  lemma RoundRobinFairIff(cursors: Cursors, picks: seq<string>, scope: string, n: int)
    requires n > 0 && NeverCleared(cursors, picks) && 0 <= CursorOf(cursors, scope) < TWO_64
    requires |Positions(cursors, picks, scope, n)| == n
    ensures EachOnce(Positions(cursors, picks, scope, n), n)
      <==> CursorOf(cursors, scope) + n <= TWO_64 || TWO_64 % n == 0
  {
    var start, positions := CursorOf(cursors, scope), Positions(cursors, picks, scope, n);
    forall j: nat | j < n ensures positions[j] == PositionAt(start + j, n) {
      VisitsAdvance(cursors, picks, scope, j);
    }
    FairIff(start, n, positions);
  }

  lemma FairIff(start: int, n: int, positions: seq<int>)
    requires 0 <= start < TWO_64 && n > 0
    requires |positions| == n && forall j: nat | j < n :: positions[j] == PositionAt(start + j, n)
    ensures EachOnce(positions, n) <==> start + n <= TWO_64 || TWO_64 % n == 0
  {
    if TWO_64 % n == 0 {
      forall j: nat | j < n ensures positions[j] == (start + j) % n {
        WrapKeepsResidue(start + j, n);
      }
      ResiduesEachOnce(start, n, positions);
    } else if start + n <= TWO_64 {
      ResiduesEachOnce(start, n, positions);
    } else {
      WrapUnfair(start, n, positions);
    }
  }

  /** With three candidates and the cursor about to wrap, the first is picked twice running and the last not at all. */
  lemma WrapRepeatsCandidate()
    ensures var cursors: Cursors := map["a" := TWO_64 - 1];
      Positions(cursors, ["a", "a", "a"], "a", 3) == [0, 0, 1] && !EachOnce([0, 0, 1], 3)
  {
    var cursors: Cursors := map["a" := TWO_64 - 1];
    var next := Turn(cursors, "a");
    assert CursorOf(next, "a") == 0 && CursorOf(Turn(next, "a"), "a") == 1;
    assert ["a", "a"][1..] == ["a"] && ["a", "a", "a"][1..] == ["a", "a"];
    assert Visits(Turn(next, "a"), ["a"], "a") == [1];
    assert Visits(next, ["a", "a"], "a") == [0] + [1];
    assert Visits(cursors, ["a", "a", "a"], "a") == [TWO_64 - 1, 0, 1];
    assert [0, 0, 1][0] == [0, 0, 1][1];
  }
}
