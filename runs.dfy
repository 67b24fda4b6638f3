/** Whole runs of the estimator: a fresh instance (no levels) followed by one
    write per element of a sequence, and what a run leaves behind. */
module Runs {
  import opened Wrappers
  import opened Sorting
  import opened Medians
  import opened Hierarchy

  /** The state after new Remedian(n) and one write per element of xs, in order. */
  function Run(xs: seq<real>, n: nat): (s: State)
    requires n != 1
    ensures WellFormed(s.levels, n) && (|s.levels| > 0 ==> s.active < |s.levels|)
    decreases |xs|
  {
    if |xs| == 0 then State([], 0)
    else
      var before := Run(xs[..|xs| - 1], n);
      WriteWellFormed(before.levels, xs[|xs| - 1], n);
      Write(before.levels, xs[|xs| - 1], n)
  }

  /** A run of no writes is the fresh instance; after a write the state is
      settled and (with at least two slots per level) the levels stand for
      exactly the values written. */
  lemma {:induction false} RunFacts(xs: seq<real>, n: nat)
    requires n != 1
    ensures |xs| == 0 ==> Run(xs, n) == State([], 0)
    ensures Quiet(Run(xs, n).levels, n)
    ensures |xs| > 0 ==> Settled(Run(xs, n), n)
    ensures n >= 2 ==> MassOf(Run(xs, n).levels, n) == |xs|
  {
    if |xs| > 0 {
      var ys := xs[..|xs| - 1];
      RunFacts(ys, n);
      WriteSettles(Run(ys, n).levels, xs[|xs| - 1], n);
    }
  }

  /** A run keeps every value it has been given in its mass: the estimate is
      the weighted median of the values held, their weights add up to the
      number of values written, and it is none exactly when nothing was
      written. */
  lemma {:induction false} RunEstimate(xs: seq<real>, n: nat)
    requires n >= 2
    ensures Estimate(Run(xs, n), n).None? <==> |xs| == 0
    ensures |xs| > 0 ==> WeightedInput(AllValues(Run(xs, n).levels), AllWeights(Run(xs, n).levels, n))
    ensures |xs| > 0 ==> SumOf(AllWeights(Run(xs, n).levels, n), Id) == |xs| as real
    ensures |xs| > 0 ==>
              Estimate(Run(xs, n), n) == Some(WeightedMedianOf(AllValues(Run(xs, n).levels), AllWeights(Run(xs, n).levels, n)))
  {
    var s := Run(xs, n);
    RunFacts(xs, n);
    EstimateNoneIff(s, n);
    if |xs| > 0 {
      EstimateIsWeightedMedian(s, n);
      AllWeightsFacts(s.levels, n);
    }
  }

  /** The memory bound of the method: after m writes the top level j has
      n^j <= m, so a run keeps about log_n(m) levels of n slots each, and no
      level holds n values between writes. */
  lemma {:induction false} LevelsBound(xs: seq<real>, n: nat)
    requires n >= 2 && |xs| > 0
    ensures |Run(xs, n).levels| > 0
    ensures Pow(n, |Run(xs, n).levels| - 1) <= |xs|
    ensures forall j :: 0 <= j < |Run(xs, n).levels| ==> |Values(Run(xs, n).levels[j])| < n
  {
    var s := Run(xs, n);
    RunFacts(xs, n);
    QuietBound(s.levels, n);
  }

  /** Quiet levels of mass m: the top level j has n^j <= m and every level
      holds fewer than n values. */
  lemma {:induction false} QuietBound(levels: seq<Level>, n: nat)
    requires n >= 2 && |levels| > 0 && Quiet(levels, n)
    ensures Pow(n, |levels| - 1) <= MassOf(levels, n)
    ensures forall j :: 0 <= j < |levels| ==> |Values(levels[j])| < n
  {
    var top := |levels| - 1;
    FullShape(levels[top]);
    LevelMass(levels, top, n);
    AtLeastOnce(|Values(levels[top])|, Pow(n, top));
    forall j | 0 <= j < |levels| ensures |Values(levels[j])| < n {
      NotFullBound(levels[j], n);
    }
  }

  lemma {:induction false} AtLeastOnce(c: nat, p: nat)
    requires c >= 1
    ensures c * p >= p
  {
    if c > 1 {
      AtLeastOnce(c - 1, p);
      AddOne(c - 1, p);
    }
  }

  /** A level of n slots that is not full holds fewer than n values. */
  lemma {:induction false} NotFullBound(l: Level, n: nat)
    requires n > 0 && |l| == n && PrefixFilled(l) && !IsFull(l)
    ensures |Values(l)| < n
  {
    FullShape(l);
    PrefixShape(l);
  }

  /** The last write of a run is Write applied after the run of the others. */
  lemma {:induction false} RunLast(xs: seq<real>, n: nat)
    requires n != 1 && |xs| > 0
    ensures Run(xs, n) == Write(Run(xs[..|xs| - 1], n).levels, xs[|xs| - 1], n)
  {
  }

  /** A write whose first insert leaves level 0 not full stops there. */
  lemma {:induction false} WriteNoCarry(levels: seq<Level>, x: real, n: nat)
    requires n != 1 && WellFormed(levels, n) && !IsFull(Start(levels, x, n)[0])
    ensures Write(levels, x, n) == State(Start(levels, x, n), 0)
  {
  }

  /** A write that fills level 0 and whose carried median leaves level 1 not
      full stops at level 1. */
  lemma {:induction false} WriteOneCarry(levels: seq<Level>, x: real, n: nat, first: seq<Level>, next: seq<Level>)
    requires n != 1 && WellFormed(levels, n)
    requires first == Start(levels, x, n) && IsFull(first[0])
    requires next == Carry(first, 0, n) && !IsFull(next[1])
    ensures Write(levels, x, n) == State(next, 1)
  {
    assert Settle(first, 0, n) == Settle(next, 1, n);
    assert Settle(next, 1, n) == State(next, 1);
  }

  /** The first insert of a write into a level 0 with an empty slot appends
      to level 0. */
  lemma {:induction false} StartAppends(levels: seq<Level>, vs: seq<real>, m: nat, x: real, n: nat)
    requires WellFormed(levels, n) && |levels| > 0 && m > 0
    requires levels[0] == Filled(vs) + EmptyLevel(m)
    ensures Start(levels, x, n) == levels[0 := Filled(vs + [x]) + EmptyLevel(m - 1)]
  {
    assert Grow(levels, 0, n) == levels;
    InsertShape(vs, m, x);
  }

  /** A write into a level 0 with at least two empty slots appends to level 0
      and changes nothing else. */
  lemma {:induction false} WriteAppends(levels: seq<Level>, vs: seq<real>, m: nat, x: real, n: nat)
    requires n != 1 && WellFormed(levels, n) && |levels| > 0 && m >= 2
    requires levels[0] == Filled(vs) + EmptyLevel(m)
    ensures Write(levels, x, n) == State(levels[0 := Filled(vs + [x]) + EmptyLevel(m - 1)], 0)
  {
    StartAppends(levels, vs, m, x, n);
    var first := levels[0 := Filled(vs + [x]) + EmptyLevel(m - 1)];
    assert !IsFull(first[0]);
    WriteNoCarry(levels, x, n);
  }

  /** Carrying the full level 0 into a level 1 with an empty slot appends the
      median to level 1 and empties level 0. */
  lemma {:induction false} CarryAppends(levels: seq<Level>, ws: seq<real>, k: nat, n: nat)
    requires n != 1 && WellFormed(levels, n) && |levels| >= 2 && IsFull(levels[0]) && k > 0
    requires levels[1] == Filled(ws) + EmptyLevel(k)
    ensures Carry(levels, 0, n)
         == levels[0 := EmptyLevel(n)][1 := Filled(ws + [ExactMedian(Values(levels[0]))]) + EmptyLevel(k - 1)]
  {
    FullShape(levels[0]);
    var m := ExactMedian(Values(levels[0]));
    var cleared := levels[0 := EmptyLevel(n)];
    assert Grow(cleared, 1, n) == cleared;
    InsertShape(ws, k, m);
    CarryStep(levels, 0, n, m, cleared, cleared, cleared[1 := Insert(cleared[1], m)]);
  }

  /** A write that fills level 0 when level 1 has at least two empty slots:
      level 0 is emptied and the exact median of its values, x last, is
      appended to level 1. */
  lemma {:induction false} WriteCarriesOnce(levels: seq<Level>, vs: seq<real>, ws: seq<real>, k: nat,
                                            x: real, n: nat)
    requires n >= 2 && WellFormed(levels, n) && |levels| >= 2 && k >= 2
    requires levels[0] == Filled(vs) + EmptyLevel(1) && levels[1] == Filled(ws) + EmptyLevel(k)
    ensures Write(levels, x, n)
         == State(levels[0 := EmptyLevel(n)][1 := Filled(ws + [ExactMedian(vs + [x])]) + EmptyLevel(k - 1)], 1)
  {
    var first := levels[0 := Filled(vs + [x]) + EmptyLevel(0)];
    var next := levels[0 := EmptyLevel(n)][1 := Filled(ws + [ExactMedian(vs + [x])]) + EmptyLevel(k - 1)];
    StartFillsLevelZero(levels, vs, x, n);
    CarryAfterFill(levels, first, vs, ws, k, x, n);
    WriteOneCarry(levels, x, n, first, next);
  }

  /** The insert that takes level 0 from one empty slot to none leaves it full,
      holding the old values and then x. */
  lemma {:induction false} StartFillsLevelZero(levels: seq<Level>, vs: seq<real>, x: real, n: nat)
    requires n >= 2 && WellFormed(levels, n) && |levels| >= 2
    requires levels[0] == Filled(vs) + EmptyLevel(1)
    ensures Start(levels, x, n) == levels[0 := Filled(vs + [x]) + EmptyLevel(0)]
    ensures IsFull(Start(levels, x, n)[0]) && Values(Start(levels, x, n)[0]) == vs + [x]
  {
    StartAppends(levels, vs, 1, x, n);
    ValuesOfShape(vs + [x], 0);
    FullShape(Start(levels, x, n)[0]);
  }

  /** Carrying the level 0 just filled by x puts its median into level 1. */
  lemma {:induction false} CarryAfterFill(levels: seq<Level>, first: seq<Level>, vs: seq<real>, ws: seq<real>,
                                          k: nat, x: real, n: nat)
    requires n >= 2 && WellFormed(levels, n) && |levels| >= 2 && k >= 2
    requires levels[0] == Filled(vs) + EmptyLevel(1) && levels[1] == Filled(ws) + EmptyLevel(k)
    requires first == Start(levels, x, n) && first == levels[0 := Filled(vs + [x]) + EmptyLevel(0)]
    requires IsFull(first[0]) && Values(first[0]) == vs + [x]
    ensures WellFormed(first, n)
    ensures Carry(first, 0, n)
         == levels[0 := EmptyLevel(n)][1 := Filled(ws + [ExactMedian(vs + [x])]) + EmptyLevel(k - 1)]
    ensures !IsFull(Carry(first, 0, n)[1])
  {
    CarryAppends(first, ws, k, n);
    assert first[0 := EmptyLevel(n)] == levels[0 := EmptyLevel(n)];
  }

  /** While fewer than n values have been written they all sit in level 0, in
      the order written. */
  lemma {:induction false} RunShort(xs: seq<real>, n: nat)
    requires n >= 2 && 0 < |xs| < n
    ensures Run(xs, n) == State([Filled(xs) + EmptyLevel(n - |xs|)], 0)
    decreases |xs|, 1
  {
    var ys := xs[..|xs| - 1];
    RunLast(xs, n);
    BeforeShort(ys, n);
    var before := Run(ys, n).levels;
    assert n - |ys| == n - |xs| + 1;
    assert Grow(before, 0, n) == [Filled(ys) + EmptyLevel(n - |xs| + 1)];
    WriteShort(before, xs, n);
  }

  /** A write into the single level of a short run appends to it. */
  lemma {:induction false} WriteShort(before: seq<Level>, xs: seq<real>, n: nat)
    requires n >= 2 && 0 < |xs| < n && WellFormed(before, n)
    requires Grow(before, 0, n) == [Filled(xs[..|xs| - 1]) + EmptyLevel(n - |xs| + 1)]
    ensures Write(before, xs[|xs| - 1], n) == State([Filled(xs) + EmptyLevel(n - |xs|)], 0)
  {
    var ys, x := xs[..|xs| - 1], xs[|xs| - 1];
    InsertShape(ys, n - |ys|, x);
    StartSingle(before, Filled(ys) + EmptyLevel(n - |ys|), x, n);
    assert xs == ys + [x];
    var first := [Filled(xs) + EmptyLevel(n - |xs|)];
    assert Start(before, x, n) == first;
    assert !IsFull(first[0]);
  }

  /** The first insert of a write when there is one level, or none yet. */
  lemma {:induction false} StartSingle(before: seq<Level>, l: Level, x: real, n: nat)
    requires WellFormed(before, n) && Grow(before, 0, n) == [l]
    ensures Start(before, x, n) == [Insert(l, x)]
  {
  }

  /** The levels a short run leaves, level 0 created when needed. */
  lemma {:induction false} BeforeShort(ys: seq<real>, n: nat)
    requires n >= 2 && |ys| < n
    ensures Grow(Run(ys, n).levels, 0, n) == [Filled(ys) + EmptyLevel(n - |ys|)]
    decreases |ys|, 2
  {
    if |ys| == 0 {
      assert ys == [];
      EmptyShape(n);
    } else {
      RunShort(ys, n);
    }
  }

  /** The write that fills level 0 for the first time carries the exact median
      of the first n values into a new level 1 and leaves level 0 empty. */
  lemma {:induction false} RunFull(xs: seq<real>, n: nat)
    requires n >= 2 && |xs| == n
    ensures Run(xs, n) == State([EmptyLevel(n), Filled([ExactMedian(xs)]) + EmptyLevel(n - 1)], 1)
  {
    var ys := xs[..n - 1];
    RunLast(xs, n);
    BeforeShort(ys, n);
    var before := Run(ys, n).levels;
    assert n - |ys| == 1;
    assert Grow(before, 0, n) == [Filled(ys) + EmptyLevel(1)];
    StartFills(before, xs, n);
    FirstCarry(xs, n);
  }

  /** The insert that fills the single level of a run of n - 1 values. */
  lemma {:induction false} StartFills(before: seq<Level>, xs: seq<real>, n: nat)
    requires n >= 2 && |xs| == n && WellFormed(before, n)
    requires Grow(before, 0, n) == [Filled(xs[..n - 1]) + EmptyLevel(1)]
    ensures Start(before, xs[n - 1], n) == [Filled(xs)]
  {
    var ys, x := xs[..n - 1], xs[n - 1];
    InsertShape(ys, 1, x);
    StartSingle(before, Filled(ys) + EmptyLevel(1), x, n);
    assert EmptyLevel(0) == [];
    assert xs == ys + [x];
    assert Filled(xs) + EmptyLevel(0) == Filled(xs);
  }

  /** Settling a single full level: its exact median goes into slot 0 of a new
      level 1. */
  lemma {:induction false} FirstCarry(xs: seq<real>, n: nat)
    requires n >= 2 && |xs| == n
    ensures WellFormed([Filled(xs)], n)
    ensures Settle([Filled(xs)], 0, n)
         == State([EmptyLevel(n), Filled([ExactMedian(xs)]) + EmptyLevel(n - 1)], 1)
  {
    var first := [Filled(xs)];
    ValuesOfShape(xs, 0);
    assert EmptyLevel(0) == [];
    assert Filled(xs) + EmptyLevel(0) == Filled(xs);
    assert Values(first[0]) == xs;
    FullShape(first[0]);
    assert WellFormed(first, n);
    var m := ExactMedian(xs);
    var cleared := first[0 := EmptyLevel(n)];
    var grown := Grow(cleared, 1, n);
    assert Filled([]) + EmptyLevel(n) == EmptyLevel(n);
    assert grown == [EmptyLevel(n), Filled([]) + EmptyLevel(n)];
    InsertShape([], n, m);
    assert [] + [m] == [m];
    var next := grown[1 := Insert(grown[1], m)];
    assert next == [EmptyLevel(n), Filled([m]) + EmptyLevel(n - 1)];
    CarryStep(first, 0, n, m, cleared, grown, next);
    assert !IsFull(next[1]);
  }

  /** Until the first median is carried upwards, and on the write that carries
      it, getMedian is the exact median of everything written. */
  lemma {:induction false} ExactUpToFirstCarry(xs: seq<real>, n: nat)
    requires n >= 2 && 0 < |xs| <= n
    ensures Estimate(Run(xs, n), n) == Some(ExactMedian(xs))
  {
    if |xs| < n {
      RunShort(xs, n);
      RunFacts(xs, n);
      ShortEstimate(Run(xs, n), xs, n);
    } else {
      RunFull(xs, n);
      FullEstimate(ExactMedian(xs), n);
    }
  }

  /** A settled single level holding xs estimates their exact median. */
  lemma {:induction false} ShortEstimate(s: State, xs: seq<real>, n: nat)
    requires n >= 2 && 0 < |xs| < n && Settled(s, n)
    requires s == State([Filled(xs) + EmptyLevel(n - |xs|)], 0)
    ensures Estimate(s, n) == Some(ExactMedian(xs))
  {
    SingleLevelExact(s, n);
    ValuesOfShape(xs, n - |xs|);
  }

  /** A single value m in slot 0 of level 1, over an empty level 0, is the
      estimate. */
  lemma {:induction false} FullEstimate(m: real, n: nat)
    requires n >= 2
    ensures WellFormed([EmptyLevel(n), Filled([m]) + EmptyLevel(n - 1)], n)
    ensures Estimate(State([EmptyLevel(n), Filled([m]) + EmptyLevel(n - 1)], 1), n) == Some(m)
  {
    var levels := [EmptyLevel(n), Filled([m]) + EmptyLevel(n - 1)];
    EmptyShape(n);
    ShapePrefixFilled([], n);
    ShapePrefixFilled([m], n - 1);
    assert levels[1][1] == None;
    assert IsEmpty(levels[0]);
    assert !ShouldWeight(levels, 1);
  }

  /** index.test.js:64-69: there is no level before the first write and exactly
      one after it. */
  lemma {:induction false} FirstWriteCreatesLevel(x: real, n: nat)
    requires n != 1
    ensures |Run([], n).levels| == 0
    ensures |Run([x], n).levels| == 1
  {
    WriteSettles(Run([], n).levels, x, n);
    assert [x][..0] == [];
  }

  /** index.test.js:71-81: with three slots per level, two writes keep one
      level; the third fills it, and its median 2 lands in slot 0 of a new
      level 1. */
  lemma {:induction false} CascadeExample()
    ensures |Run([1.0, 2.0], 3).levels| == 1
    ensures |Run([1.0, 2.0, 3.0], 3).levels| == 2
    ensures Run([1.0, 2.0, 3.0], 3).levels[1][0] == Some(2.0)
  {
    RunShort([1.0, 2.0], 3);
    RunFull([1.0, 2.0, 3.0], 3);
    MedianOfThree();
  }

  lemma {:induction false} MedianOfThree()
    ensures ExactMedian([1.0, 2.0, 3.0]) == 2.0
  {
    SortByIdentity([1.0, 2.0, 3.0], Id);
  }
}
