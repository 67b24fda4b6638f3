/** getMedian as index.js:159-169 is written. The weight of a value at level j
    is computed from this.buffer_size, a property the constructor never sets
    (it sets bufferSize), so the weight is undefined ** j: 1 at level 0 and NaN
    at every level above it. NaN then spreads through the weighted median of
    index.js:86-114. This module follows that code on a minimal model of
    JavaScript numbers; Hierarchy.Estimate is the intended getMedian, with
    weight bufferSize^j. */
module AsWritten {
  import opened Wrappers
  import opened Sorting
  import opened Medians
  import opened Hierarchy
  import opened Runs

  /** A JavaScript number, as far as the code needs one: a real or NaN. */
  datatype Num = Finite(r: real) | NaN

  function Plus(a: Num, b: Num): Num {
    if a.NaN? || b.NaN? then NaN else Finite(a.r + b.r)
  }

  function Minus(a: Num, b: Num): Num {
    if a.NaN? || b.NaN? then NaN else Finite(a.r - b.r)
  }

  function Half(a: Num): Num {
    if a.NaN? then NaN else Finite(a.r / 2.0)
  }

  /** a > b; every comparison with NaN is false. */
  predicate Greater(a: Num, b: Num) {
    a.Finite? && b.Finite? && a.r > b.r
  }

  /** a == b; NaN equals nothing, itself included. */
  predicate Same(a: Num, b: Num) {
    a.Finite? && b.Finite? && a.r == b.r
  }

  /** Math.round: the nearest integer, halves rounded up; NaN stays NaN. */
  function RoundNum(a: Num): Num {
    if a.NaN? then NaN else Finite(Round(a.r) as real)
  }

  /** undefined ** j: 1 when j is 0 (anything to the power 0 is 1), NaN otherwise. */
  function UndefinedPow(j: nat): (w: Num)
    ensures w.NaN? <==> j > 0
  {
    if j == 0 then Finite(1.0) else NaN
  }

  /** The weights index.js:160-168 collects as written: level j contributes one
      weight undefined ** j per value. */
  function LiteralWeights(levels: seq<Level>): seq<Num> {
    if levels == [] then []
    else
      var top := |levels| - 1;
      LiteralWeights(levels[..top]) + Copies(UndefinedPow(top), |Values(levels[top])|)
  }

  datatype NumPair = NumPair(value: real, weight: Num)

  function PairValue(p: NumPair): real { p.value }

  function NumZip(values: seq<real>, weights: seq<Num>): (ps: seq<NumPair>)
    requires |values| == |weights|
    ensures |ps| == |values|
    ensures forall j :: 0 <= j < |ps| ==> ps[j] == NumPair(values[j], weights[j])
  {
    seq(|values|, j requires 0 <= j < |values| => NumPair(values[j], weights[j]))
  }

  /** index.js:90-97: the pairs sorted by value, stably. */
  function NumSorted(values: seq<real>, weights: seq<Num>): seq<NumPair>
    requires |values| == |weights|
  {
    SortBy(NumZip(values, weights), PairValue)
  }

  /** index.js:99: the reduce of the weights from 0, left to right. */
  function Total(ps: seq<NumPair>): Num {
    if ps == [] then Finite(0.0) else Plus(Total(ps[..|ps| - 1]), ps[|ps| - 1].weight)
  }

  /** index.js:104-107 from position k with running sum `sum`: step on while
      sum > half. A step past the last pair subtracts undefined, which makes the
      sum NaN and ends the loop. Gives the final k and sum. */
  function Scan(ps: seq<NumPair>, half: Num, k: nat, sum: Num): (nat, Num)
    requires k < |ps|
    decreases |ps| - k
  {
    if !Greater(sum, half) then (k, sum)
    else if k + 1 < |ps| then Scan(ps, half, k + 1, Minus(sum, ps[k + 1].weight))
    else (k + 1, NaN)
  }

  /** sortedValues[j] in arithmetic: undefined past the end, which is NaN there. */
  function NumAt(ps: seq<NumPair>, j: nat): Num {
    if j < |ps| then Finite(ps[j].value) else NaN
  }

  /** index.js:86-114 on JavaScript numbers; none stands for undefined. */
  function LiteralWeightedMedian(values: seq<real>, weights: seq<Num>): Option<Num>
    requires |values| == |weights| > 0
  {
    var ps := NumSorted(values, weights);
    var total := Total(ps);
    var (k, sum) := Scan(ps, Half(total), 0, Minus(total, ps[0].weight));
    if Same(RoundNum(sum), Half(total)) then Some(Half(Plus(NumAt(ps, k), NumAt(ps, k + 1))))
    else if k < |ps| then Some(Finite(ps[k].value))
    else None
  }

  /** index.js:154-173 as written: Estimate with the weights of LiteralWeights. */
  function LiteralEstimate(s: State, n: nat): Option<Num>
    requires WellFormed(s.levels, n) && (|s.levels| > 0 ==> s.active < |s.levels|)
  {
    if |s.levels| == 0 then None
    else if ShouldWeight(s.levels, s.active) then
      WeightedPathInput(s.levels, s.active, n);
      AllWeightsFacts(s.levels, n);
      LiteralWeightsLength(s.levels);
      LiteralWeightedMedian(AllValues(s.levels), LiteralWeights(s.levels))
    else if |s.levels[s.active]| > 0 && s.levels[s.active][0].Some? then
      Some(Finite(s.levels[s.active][0].value))
    else None
  }

  lemma {:induction false} LiteralWeightsLength(levels: seq<Level>)
    ensures |LiteralWeights(levels)| == |AllValues(levels)|
  {
    if levels != [] {
      LiteralWeightsLength(levels[..|levels| - 1]);
    }
  }

  /** A value held above level 0 gets a NaN weight. */
  lemma {:induction false} LiteralWeightsNaN(levels: seq<Level>, j: nat, n: nat)
    requires WellFormed(levels, n) && 0 < j < |levels| && !IsEmpty(levels[j])
    ensures exists k :: 0 <= k < |LiteralWeights(levels)| && LiteralWeights(levels)[k].NaN?
  {
    var top := |levels| - 1;
    var init := LiteralWeights(levels[..top]);
    var tail := Copies(UndefinedPow(top), |Values(levels[top])|);
    assert LiteralWeights(levels) == init + tail;
    if j < top {
      LiteralWeightsNaN(levels[..top], j, n);
      var k :| 0 <= k < |init| && init[k].NaN?;
      assert (init + tail)[k] == init[k];
    } else {
      FullShape(levels[top]);
      assert (init + tail)[|init|] == tail[0];
    }
  }

  /** One NaN weight makes the total NaN. */
  lemma {:induction false} TotalNaN(ps: seq<NumPair>, j: nat)
    requires j < |ps| && ps[j].weight.NaN?
    ensures Total(ps).NaN?
  {
    if j < |ps| - 1 {
      TotalNaN(ps[..|ps| - 1], j);
    }
  }

  /** With a NaN weight anywhere the loop of index.js:104 never runs, the tie
      test fails, and the result is the smallest value. */
  lemma {:induction false} NaNWeightGivesLeast(values: seq<real>, weights: seq<Num>, j: nat)
    requires |values| == |weights| && j < |weights| && weights[j].NaN?
    ensures |NumSorted(values, weights)| == |values|
    ensures LiteralWeightedMedian(values, weights) == Some(Finite(NumSorted(values, weights)[0].value))
    ensures NumSorted(values, weights)[0].value in values
    ensures forall v :: v in values ==> NumSorted(values, weights)[0].value <= v
  {
    var zipped := NumZip(values, weights);
    var ps := NumSorted(values, weights);
    SortByPermutes(zipped, PairValue);
    SortBySorted(zipped, PairValue);
    assert zipped[j] in multiset(ps);
    var i :| 0 <= i < |ps| && ps[i] == zipped[j];
    TotalNaN(ps, i);
    assert ps[0] in multiset(zipped);
    forall v | v in values ensures ps[0].value <= v {
      var a :| 0 <= a < |values| && values[a] == v;
      assert zipped[a] in multiset(ps);
      var b :| 0 <= b < |ps| && ps[b] == zipped[a];
      assert PairValue(ps[0]) <= PairValue(ps[b]);
    }
  }

  /** Once a second level holds a value, getMedian as written returns the
      smallest value held, whenever it takes the weighted path. */
  lemma {:induction false} LiteralEstimateIsLeast(s: State, n: nat)
    requires n >= 2 && Settled(s, n) && |s.levels| >= 2 && ShouldWeight(s.levels, s.active)
    ensures exists m :: LiteralEstimate(s, n) == Some(Finite(m))
              && m in AllValues(s.levels) && forall v :: v in AllValues(s.levels) ==> m <= v
  {
    var levels := s.levels;
    var top := |levels| - 1;
    LiteralWeightsNaN(levels, top, n);
    LiteralWeightsLength(levels);
    var ws := LiteralWeights(levels);
    var k :| 0 <= k < |ws| && ws[k].NaN?;
    NaNWeightGivesLeast(AllValues(levels), ws, k);
  }

  // ---------------------------------------------------------------------------
  // Three slots per level and the writes 1, 2, 3, 10, 11, 12, 20

  lemma {:induction false} BugRunThree(xs: seq<real>)
    requires xs == [1.0, 2.0, 3.0]
    ensures Run(xs, 3) == State([EmptyLevel(3), Filled([2.0]) + EmptyLevel(2)], 1)
  {
    RunFull(xs, 3);
    MedianOfThree();
  }

  lemma {:induction false} BugRunFour(xs: seq<real>)
    requires xs == [1.0, 2.0, 3.0, 10.0]
    ensures Run(xs, 3) == State([Filled([10.0]) + EmptyLevel(2), Filled([2.0]) + EmptyLevel(2)], 0)
  {
    RunLast(xs, 3);
    BugRunThree(xs[..3]);
    BugStepFour(Run(xs[..3], 3).levels);
  }

  lemma {:induction false} BugStepFour(before: seq<Level>)
    requires before == [EmptyLevel(3), Filled([2.0]) + EmptyLevel(2)] && WellFormed(before, 3)
    ensures Write(before, 10.0, 3) == State([Filled([10.0]) + EmptyLevel(2), Filled([2.0]) + EmptyLevel(2)], 0)
  {
    EmptyShape(3);
    WriteAppends(before, [], 3, 10.0, 3);
    assert [] + [10.0] == [10.0];
  }

  lemma {:induction false} BugRunFive(xs: seq<real>)
    requires xs == [1.0, 2.0, 3.0, 10.0, 11.0]
    ensures Run(xs, 3) == State([Filled([10.0, 11.0]) + EmptyLevel(1), Filled([2.0]) + EmptyLevel(2)], 0)
  {
    RunLast(xs, 3);
    BugRunFour(xs[..4]);
    BugStepFive(Run(xs[..4], 3).levels);
  }

  lemma {:induction false} BugStepFive(before: seq<Level>)
    requires before == [Filled([10.0]) + EmptyLevel(2), Filled([2.0]) + EmptyLevel(2)] && WellFormed(before, 3)
    ensures Write(before, 11.0, 3) == State([Filled([10.0, 11.0]) + EmptyLevel(1), Filled([2.0]) + EmptyLevel(2)], 0)
  {
    WriteAppends(before, [10.0], 2, 11.0, 3);
    assert [10.0] + [11.0] == [10.0, 11.0];
  }

  lemma {:induction false} BugRunSix(xs: seq<real>)
    requires xs == [1.0, 2.0, 3.0, 10.0, 11.0, 12.0]
    ensures Run(xs, 3) == State([EmptyLevel(3), Filled([2.0, 11.0]) + EmptyLevel(1)], 1)
  {
    RunLast(xs, 3);
    BugRunFive(xs[..5]);
    BugStepSix(Run(xs[..5], 3).levels);
  }

  lemma {:induction false} BugStepSix(before: seq<Level>)
    requires before == [Filled([10.0, 11.0]) + EmptyLevel(1), Filled([2.0]) + EmptyLevel(2)] && WellFormed(before, 3)
    ensures Write(before, 12.0, 3) == State([EmptyLevel(3), Filled([2.0, 11.0]) + EmptyLevel(1)], 1)
  {
    WriteCarriesOnce(before, [10.0, 11.0], [2.0], 2, 12.0, 3);
    TopMedian();
    assert [2.0] + [11.0] == [2.0, 11.0];
  }

  lemma {:induction false} TopMedian()
    ensures ExactMedian([10.0, 11.0] + [12.0]) == 11.0
  {
    assert [10.0, 11.0] + [12.0] == [10.0, 11.0, 12.0];
    SortByIdentity([10.0, 11.0, 12.0], Id);
  }

  /** The state the writes leave: 20 alone in level 0; 2 and 11, the medians
      of 1, 2, 3 and of 10, 11, 12, in level 1. */
  lemma {:induction false} BugRun(xs: seq<real>)
    requires xs == [1.0, 2.0, 3.0, 10.0, 11.0, 12.0, 20.0]
    ensures Run(xs, 3) == State([Filled([20.0]) + EmptyLevel(2), Filled([2.0, 11.0]) + EmptyLevel(1)], 0)
  {
    RunLast(xs, 3);
    BugRunSix(xs[..6]);
    BugStepSeven(Run(xs[..6], 3).levels);
  }

  lemma {:induction false} BugStepSeven(before: seq<Level>)
    requires before == [EmptyLevel(3), Filled([2.0, 11.0]) + EmptyLevel(1)] && WellFormed(before, 3)
    ensures Write(before, 20.0, 3) == State([Filled([20.0]) + EmptyLevel(2), Filled([2.0, 11.0]) + EmptyLevel(1)], 0)
  {
    EmptyShape(3);
    WriteAppends(before, [], 3, 20.0, 3);
    assert [] + [20.0] == [20.0];
  }

  /** What that state holds: the values 20, 2, 11 with weights 1, 3, 3 as
      intended, and 1, NaN, NaN as written. */
  lemma {:induction false} BugHeld(s: State)
    requires s == State([Filled([20.0]) + EmptyLevel(2), Filled([2.0, 11.0]) + EmptyLevel(1)], 0)
    ensures WellFormed(s.levels, 3) && ShouldWeight(s.levels, s.active)
    ensures AllValues(s.levels) == [20.0, 2.0, 11.0]
    ensures AllWeights(s.levels, 3) == [1.0, 3.0, 3.0]
    ensures LiteralWeights(s.levels) == [Finite(1.0), NaN, NaN]
  {
    var l0, l1 := s.levels[0], s.levels[1];
    ValuesOfShape([20.0], 2);
    ValuesOfShape([2.0, 11.0], 1);
    var bottom: seq<Level> := [l0];
    assert s.levels[..1] == bottom;
    assert bottom[..0] == [];
    assert AllValues(bottom) == [20.0];
    assert AllWeights(bottom, 3) == [1.0];
    assert LiteralWeights(bottom) == [Finite(1.0)];
    assert Pow(3, 1) == 3;
    assert l0[0] == Some(20.0);
    ShapePrefixFilled([20.0], 2);
    ShapePrefixFilled([2.0, 11.0], 1);
  }

  /** The intended getMedian of that state: 11. */
  lemma {:induction false} BugIntended(values: seq<real>, weights: seq<real>)
    requires values == [20.0, 2.0, 11.0] && weights == [1.0, 3.0, 3.0]
    ensures WeightedInput(values, weights)
    ensures WeightedMedianOf(values, weights) == 11.0
  {
    var p0, p1, p2 := Weighted(20.0, 1.0), Weighted(2.0, 3.0), Weighted(11.0, 3.0);
    var z := Zip(values, weights);
    assert z == [p0, p1, p2];
    SortByStep(z, ValueOf, 0);
    assert z[..0] == [];
    assert SortBy(z[..1], ValueOf) == [p0];
    SortByStep(z, ValueOf, 1);
    assert SortBy(z[..2], ValueOf) == [p1, p0];
    SortByStep(z, ValueOf, 2);
    assert [p1, p0][1..] == [p0];
    assert InsertBy(p2, [p1, p0], ValueOf) == [p1, p2, p0];
    assert z[..3] == z;
    var ps := SortBy(z, ValueOf);
    assert ps == [p1, p2, p0];
    SumOfSort(z, ValueOf, WeightOf);
    ZipWeights(values, weights);
    assert ps[3..] == [];
    WeightAfterStep(ps, 1);
    WeightAfterStep(ps, 0);
    assert SumOf(ps, WeightOf) == 7.0;
    assert WeightAfter(ps, 1) == 1.0;
    assert WeightAfter(ps, 0) == 4.0;
    MedianAt(ps, 1);
  }

  /** getMedian as written on that state: 2, the smallest value held. */
  lemma {:induction false} BugLiteral(values: seq<real>, weights: seq<Num>)
    requires values == [20.0, 2.0, 11.0] && weights == [Finite(1.0), NaN, NaN]
    ensures LiteralWeightedMedian(values, weights) == Some(Finite(2.0))
  {
    NaNWeightGivesLeast(values, weights, 1);
    var m := NumSorted(values, weights)[0].value;
    assert values[1] == 2.0;
    assert 2.0 in values;
    assert m <= 2.0;
  }

  /** index.js:165 as written: after the writes 1, 2, 3, 10, 11, 12, 20 into
      levels of three slots, getMedian returns 2, where the weights bufferSize^j
      give 11. */
  lemma {:induction false} WeightBugExample(xs: seq<real>)
    requires xs == [1.0, 2.0, 3.0, 10.0, 11.0, 12.0, 20.0]
    ensures Estimate(Run(xs, 3), 3) == Some(11.0)
    ensures LiteralEstimate(Run(xs, 3), 3) == Some(Finite(2.0))
  {
    BugRun(xs);
    var s := Run(xs, 3);
    BugHeld(s);
    BugIntended(AllValues(s.levels), AllWeights(s.levels, 3));
    BugLiteral(AllValues(s.levels), LiteralWeights(s.levels));
  }

  /** index.js:131-135 counts the current level too, when it is not the top. With
      bufferSize 3, after writes 1, 2, 3, 10 the current level 0 holds only 10 and
      its slot 1 is empty, but level 0 is below the top level, so the estimate is
      the weighted median of 10 and 2, which is 2, not the 10 in slot 0. */
  lemma {:induction false} CurrentLevelCounts(xs: seq<real>)
    requires xs == [1.0, 2.0, 3.0, 10.0]
    ensures |Run(xs, 3).levels| == 2 && |Run(xs, 3).levels[0]| == 3
    ensures Run(xs, 3).active == 0 && Run(xs, 3).levels[0][0] == Some(10.0)
    ensures Run(xs, 3).levels[0][1].None? && ShouldWeight(Run(xs, 3).levels, 0)
    ensures Estimate(Run(xs, 3), 3) == Some(2.0)
  {
    BugRunFour(xs);
    var s := Run(xs, 3);
    FourHeld(s);
    FourWeighted(AllValues(s.levels), AllWeights(s.levels, 3));
  }

  lemma {:induction false} FourHeld(s: State)
    requires s == State([Filled([10.0]) + EmptyLevel(2), Filled([2.0]) + EmptyLevel(2)], 0)
    ensures WellFormed(s.levels, 3) && ShouldWeight(s.levels, s.active)
    ensures s.levels[0][1].None?
    ensures AllValues(s.levels) == [10.0, 2.0]
    ensures AllWeights(s.levels, 3) == [1.0, 3.0]
  {
    var l0 := s.levels[0];
    ValuesOfShape([10.0], 2);
    ValuesOfShape([2.0], 2);
    var bottom: seq<Level> := [l0];
    assert s.levels[..1] == bottom;
    assert bottom[..0] == [];
    assert AllValues(bottom) == [10.0];
    assert AllWeights(bottom, 3) == [1.0];
    assert Pow(3, 1) == 3;
    assert l0[0] == Some(10.0);
    ShapePrefixFilled([10.0], 2);
    ShapePrefixFilled([2.0], 2);
  }

  /** The weighted median of 10 and 2 with weights 1 and 3 is 2. */
  lemma {:induction false} FourWeighted(values: seq<real>, weights: seq<real>)
    requires values == [10.0, 2.0] && weights == [1.0, 3.0]
    ensures WeightedInput(values, weights)
    ensures WeightedMedianOf(values, weights) == 2.0
  {
    var p0, p1 := Weighted(10.0, 1.0), Weighted(2.0, 3.0);
    var z := Zip(values, weights);
    assert z == [p0, p1];
    SortByStep(z, ValueOf, 0);
    assert z[..0] == [];
    assert SortBy(z[..1], ValueOf) == [p0];
    SortByStep(z, ValueOf, 1);
    assert z[..2] == z;
    var ps := SortBy(z, ValueOf);
    assert ps == [p1, p0];
    SumOfSort(z, ValueOf, WeightOf);
    ZipWeights(values, weights);
    assert ps[2..] == [];
    WeightAfterStep(ps, 0);
    assert SumOf(ps, WeightOf) == 4.0;
    assert WeightAfter(ps, 0) == 1.0;
    MedianAt(ps, 0);
  }
}
