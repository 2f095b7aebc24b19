/** Runs of a state machine whose moves are total functions, and induction over them. */
module Runs {

  /** The state after the moves `ms`, in order. */
  ghost function Run<S, M>(s: S, ms: seq<M>, step: (S, M) -> S): S
    decreases |ms|
  {
    if ms == [] then s else Run(step(s, ms[0]), ms[1..], step)
  }

  /** Every move of the run is one that `may` be made where it is made. */
  ghost predicate IsRun<S, M>(s: S, ms: seq<M>, step: (S, M) -> S, may: (S, M) -> bool)
    decreases |ms|
  {
    ms == [] || (may(s, ms[0]) && IsRun(step(s, ms[0]), ms[1..], step, may))
  }

  /** What the moves of the run cost together, each priced in the state it is made in. */
  ghost function Total<S, M>(s: S, ms: seq<M>, step: (S, M) -> S, cost: (S, M) -> int): int
    decreases |ms|
  {
    if ms == [] then 0 else cost(s, ms[0]) + Total(step(s, ms[0]), ms[1..], step, cost)
  }

  ghost predicate Keeps<S(!new), M(!new)>(step: (S, M) -> S, may: (S, M) -> bool, inv: S -> bool) {
    forall s, m :: inv(s) && may(s, m) ==> inv(step(s, m))
  }

  lemma {:induction false} Invariant<S(!new), M(!new)>(
    s: S, ms: seq<M>, step: (S, M) -> S, may: (S, M) -> bool, inv: S -> bool)
    requires inv(s) && IsRun(s, ms, step, may) && Keeps(step, may, inv)
    ensures inv(Run(s, ms, step))
    decreases |ms|
  {
    if ms != [] {
      Invariant(step(s, ms[0]), ms[1..], step, may, inv);
    }
  }

  /** A quantity that every move changes by its cost. */
  ghost predicate Prices<S(!new), M(!new)>(
    step: (S, M) -> S, may: (S, M) -> bool, inv: S -> bool, quantity: S -> int, cost: (S, M) -> int)
  {
    forall s, m :: inv(s) && may(s, m) ==> quantity(step(s, m)) == quantity(s) + cost(s, m)
  }

  lemma {:induction false} Telescope<S(!new), M(!new)>(
    s: S, ms: seq<M>, step: (S, M) -> S, may: (S, M) -> bool, inv: S -> bool, quantity: S -> int, cost: (S, M) -> int)
    requires inv(s) && IsRun(s, ms, step, may) && Keeps(step, may, inv) && Prices(step, may, inv, quantity, cost)
    ensures quantity(Run(s, ms, step)) == quantity(s) + Total(s, ms, step, cost)
    decreases |ms|
  {
    if ms != [] {
      Telescope(step(s, ms[0]), ms[1..], step, may, inv, quantity, cost);
    }
  }

  /** A reflexive and transitive relation that every move respects holds between the ends of the run. */
  ghost predicate Preorder<S(!new)>(rel: (S, S) -> bool) {
    && (forall s :: rel(s, s))
    && (forall s, t, u :: rel(s, t) && rel(t, u) ==> rel(s, u))
  }

  ghost predicate Respects<S(
    !new), M(!new)>(step: (S, M) -> S, may: (S, M) -> bool, inv: S -> bool, rel: (S, S) -> bool) {
    forall s, m :: inv(s) && may(s, m) ==> rel(s, step(s, m))
  }

  lemma {:induction false} Monotone<S(!new), M(!new)>(
    s: S, ms: seq<M>, step: (S, M) -> S, may: (S, M) -> bool, inv: S -> bool, rel: (S, S) -> bool)
    requires inv(s) && IsRun(s, ms, step, may) && Keeps(step, may, inv)
    requires Preorder(rel) && Respects(step, may, inv, rel)
    ensures rel(s, Run(s, ms, step))
    decreases |ms|
  {
    if ms != [] {
      var next := step(s, ms[0]);
      Monotone(next, ms[1..], step, may, inv, rel);
      assert rel(s, next);
    }
  }

  lemma RunFirst<S, M>(s: S, m: M, ms: seq<M>, step: (S, M) -> S, may: (S, M) -> bool)
    ensures Run(s, [m] + ms, step) == Run(step(s, m), ms, step)
    ensures IsRun(s, [m] + ms, step, may) <==> may(s, m) && IsRun(step(s, m), ms, step, may)
  {
    assert ([m] + ms)[1..] == ms;
  }

  lemma {:induction false} RunConcat<S, M>(s: S, one: seq<M>, two: seq<M>, step: (S, M) -> S, may: (S, M) -> bool)
    ensures Run(s, one + two, step) == Run(Run(s, one, step), two, step)
    ensures IsRun(s, one + two, step, may) <==> IsRun(s, one, step, may) && IsRun(Run(s, one, step), two, step, may)
    decreases |one|
  {
    if one == [] {
      assert one + two == two;
    } else {
      assert (one + two)[1..] == one[1..] + two;
      RunConcat(step(s, one[0]), one[1..], two, step, may);
    }
  }

  lemma RunOfTwo<S, M>(s: S, m1: M, m2: M, step: (S, M) -> S, may: (S, M) -> bool)
    ensures Run(s, [m1, m2], step) == step(step(s, m1), m2)
    ensures IsRun(s, [m1, m2], step, may) <==> may(s, m1) && may(step(s, m1), m2)
  {
    RunFirst(s, m1, [m2], step, may);
    RunFirst(step(s, m1), m2, [], step, may);
    assert [m1] + [m2] == [m1, m2] && [m2] + [] == [m2];
  }

  lemma RunOfThree<S, M>(s: S, m1: M, m2: M, m3: M, step: (S, M) -> S, may: (S, M) -> bool)
    ensures Run(s, [m1, m2, m3], step) == step(step(step(s, m1), m2), m3)
    ensures IsRun(s, [m1, m2, m3], step, may) <==>
              may(s, m1) && may(step(s, m1), m2) && may(step(step(s, m1), m2), m3)
  {
    RunFirst(s, m1, [m2, m3], step, may);
    RunFirst(step(s, m1), m2, [m3], step, may);
    RunFirst(step(step(s, m1), m2), m3, [], step, may);
    assert [m1] + [m2, m3] == [m1, m2, m3] && [m2] + [m3] == [m2, m3] && [m3] + [] == [m3];
  }
}
