/** Loops whose whole state is one position among finitely many: such a loop ends exactly
    when it never comes to a position twice. */
module Orbits {
  import opened Wrappers

  /** The position after `turns` turns, unless the loop has ended before. */
  function Orbit(next: nat -> Option<nat>, start: nat, turns: nat): Option<nat>
    decreases turns
  {
    if turns == 0 then Some(start)
    else
      var before := Orbit(next, start, turns - 1);
      if before.None? then None else next(before.value)
  }

  ghost predicate Bounded(next: nat -> Option<nat>, limit: nat) {
    forall p: nat | p <= limit :: next(p).Some? ==> next(p).value <= limit
  }

  /** The same position before turn `i` and before turn `j`. */
  ghost predicate Repeats(next: nat -> Option<nat>, start: nat, i: nat, j: nat) {
    i < j && Orbit(next, start, i).Some? && Orbit(next, start, i) == Orbit(next, start, j)
  }

  lemma {:induction false} OrbitStays(next: nat -> Option<nat>, start: nat, turns: nat, limit: nat)
    requires Bounded(next, limit) && start <= limit
    ensures Orbit(next, start, turns).Some? ==> Orbit(next, start, turns).value <= limit
    decreases turns
  {
    if turns > 0 { OrbitStays(next, start, turns - 1, limit); }
  }

  lemma {:induction false} OrbitPrefix(next: nat -> Option<nat>, start: nat, few: nat, turns: nat)
    requires few <= turns && Orbit(next, start, turns).Some?
    ensures Orbit(next, start, few).Some?
    decreases turns
  {
    if few < turns { OrbitPrefix(next, start, few, turns - 1); }
  }

  /** The first turn and the rest. */
  lemma {:induction false} OrbitShift(next: nat -> Option<nat>, start: nat, turns: nat)
    ensures Orbit(next, start, turns + 1) == if next(start).None? then None else Orbit(next, next(start).value, turns)
    decreases turns
  {
    if turns > 0 {
      OrbitShift(next, start, turns - 1);
    } else {
      assert Orbit(next, start, 0) == Some(start);
    }
  }

  lemma {:induction false} RepeatGoesOn(next: nat -> Option<nat>, start: nat, i: nat, j: nat, more: nat)
    requires Repeats(next, start, i, j)
    ensures Orbit(next, start, i + more) == Orbit(next, start, j + more)
    decreases more
  {
    if more > 0 { RepeatGoesOn(next, start, i, j, more - 1); }
  }

  /** A loop that comes back somewhere never ends. */
  lemma {:induction false} RepeatNeverEnds(next: nat -> Option<nat>, start: nat, i: nat, j: nat, turns: nat)
    requires Repeats(next, start, i, j)
    ensures Orbit(next, start, turns).Some?
    decreases turns
  {
    if turns <= i {
      OrbitPrefix(next, start, turns, i);
    } else if turns <= j {
      OrbitPrefix(next, start, turns, j);
    } else {
      RepeatGoesOn(next, start, i, j, turns - j);
      RepeatNeverEnds(next, start, i, j, i + (turns - j));
    }
  }

  /** Among more values than there are numbers below `limit`, two agree. */
  lemma {:induction false} Pigeonhole(values: seq<nat>, limit: nat)
    requires |values| > limit && forall v | v in values :: v < limit
    ensures exists i: nat, j: nat :: i < j < |values| && values[i] == values[j]
    decreases limit
  {
    if forall i, j | 0 <= i < j < |values| :: values[i] != values[j] {
      DistinctFit(values, limit);
    }
  }

  lemma {:induction false} DistinctFit(values: seq<nat>, limit: nat)
    requires (forall v | v in values :: v < limit) && forall i, j | 0 <= i < j < |values| :: values[i] != values[j]
    ensures |values| <= limit
  {
    var seen := set v: nat | v in values;
    SizeOfDistinct(values);
    assert Room(limit) == seen + (Room(limit) - seen);
    assert |Room(limit)| == |seen| + |Room(limit) - seen|;
  }

  lemma {:induction false} SizeOfDistinct(values: seq<nat>)
    requires forall i, j | 0 <= i < j < |values| :: values[i] != values[j]
    ensures |set v: nat | v in values| == |values|
    decreases |values|
  {
    if values != [] {
      var rest := set v: nat | v in values[1..];
      SizeOfDistinct(values[1..]);
      assert values[0] !in rest;
      assert (set v: nat | v in values) == rest + {values[0]};
    }
  }

  /** The numbers below a limit. */
  function Room(limit: nat): (room: set<nat>)
    ensures |room| == limit && forall v: nat :: v in room <==> v < limit
  {
    if limit == 0 then {} else Room(limit - 1) + {limit - 1}
  }

  /** A loop that makes more turns than there are positions comes back somewhere. */
  lemma {:induction false} LongOrbitRepeats(next: nat -> Option<nat>, start: nat, limit: nat)
    requires Bounded(next, limit) && start <= limit && Orbit(next, start, limit + 1).Some?
    ensures exists i: nat, j: nat :: j <= limit + 1 && Repeats(next, start, i, j)
  {
    forall k: nat | k <= limit + 1
      ensures Orbit(next, start, k).Some? && Orbit(next, start, k).value <= limit
    {
      OrbitPrefix(next, start, k, limit + 1);
      OrbitStays(next, start, k, limit);
    }
    var values := seq(limit + 2, k requires 0 <= k < limit + 2 => Orbit(next, start, k).value);
    Pigeonhole(values, limit + 1);
    var i: nat, j: nat :| i < j < |values| && values[i] == values[j];
    assert Orbit(next, start, i).value == values[i] && Orbit(next, start, j).value == values[j];
    assert Repeats(next, start, i, j);
  }

  /** Ending, and ending soon, is the same as never coming to a position twice. */
  lemma {:induction false} EndsExactly(next: nat -> Option<nat>, start: nat, limit: nat)
    requires Bounded(next, limit) && start <= limit
    ensures Orbit(next, start, limit + 1).None? <==> !exists i: nat, j: nat :: Repeats(next, start, i, j)
    ensures Orbit(next, start, limit + 1).Some? ==> forall turns: nat :: Orbit(next, start, turns).Some?
  {
    if Orbit(next, start, limit + 1).Some? {
      LongOrbitRepeats(next, start, limit);
      var i: nat, j: nat :| j <= limit + 1 && Repeats(next, start, i, j);
      forall turns: nat ensures Orbit(next, start, turns).Some? { RepeatNeverEnds(next, start, i, j, turns); }
    } else if i: nat, j: nat :| Repeats(next, start, i, j) {
      RepeatNeverEnds(next, start, i, j, limit + 1);
    }
  }

  lemma {:induction false} StaysPut(next: nat -> Option<nat>, p: nat, turns: nat)
    requires next(p) == Some(p)
    ensures Orbit(next, p, turns) == Some(p)
    decreases turns
  {
    if turns > 0 { StaysPut(next, p, turns - 1); }
  }

  /** Every position the loop comes to that leads on leads forward. Positions it never comes
      to do not matter. */
  ghost predicate GoesForward(next: nat -> Option<nat>, start: nat) {
    forall k: nat :: Orbit(next, start, k).Some? ==> Leads(next, Orbit(next, start, k).value)
  }

  predicate Leads(next: nat -> Option<nat>, p: nat) {
    next(p).Some? ==> next(p).value > p
  }

  /** A loop that only goes forward never comes to a position twice, and so it ends. */
  lemma {:induction false} ForwardEnds(next: nat -> Option<nat>, start: nat, limit: nat)
    requires Bounded(next, limit) && start <= limit && GoesForward(next, start)
    ensures Orbit(next, start, limit + 1).None?
  {
    hide GoesForward;
    Climbs(next, start, limit + 1);
    OrbitStays(next, start, limit + 1, limit);
  }

  lemma {:induction false} Climbs(next: nat -> Option<nat>, start: nat, turns: nat)
    requires GoesForward(next, start)
    ensures Orbit(next, start, turns).Some? ==> Orbit(next, start, turns).value >= start + turns
    decreases turns
  {
    if turns > 0 { Climbs(next, start, turns - 1); }
  }
}
