/** The weighted medians the repository's tests expect (index.test.js:13-53),
    each proved both of WeightedMedianOf and of WeightedMedianRoundedOf, the
    rounded tie test the source uses. The Sorted and SortedPrefix lemmas work out
    the stable sort of each case a few insertions at a time. */
module MedianVectors {
  import opened Sorting
  import opened Medians

  lemma {:induction false} SevenFromThirdsSortedPrefix1(z: seq<Weighted>)
    requires z == [Weighted(7.0, 1.0), Weighted(1.0, 1.0 / 3.0), Weighted(2.0, 1.0 / 3.0), Weighted(4.0, 1.0 / 3.0), Weighted(10.0, 1.0)]
    ensures SortBy(z[..1], ValueOf) == [Weighted(7.0, 1.0)]
  {
    var p0, p1, p2, p3, p4 := Weighted(7.0, 1.0), Weighted(1.0, 1.0 / 3.0), Weighted(2.0, 1.0 / 3.0), Weighted(4.0, 1.0 / 3.0), Weighted(10.0, 1.0);
    assert z[..0] == [];
    SortByStep(z, ValueOf, 0);
    assert InsertBy(p0, [], ValueOf) == [p0];
    assert SortBy(z[..1], ValueOf) == [p0];
  }

  lemma {:induction false} SevenFromThirdsSortedPrefix2(z: seq<Weighted>)
    requires z == [Weighted(7.0, 1.0), Weighted(1.0, 1.0 / 3.0), Weighted(2.0, 1.0 / 3.0), Weighted(4.0, 1.0 / 3.0), Weighted(10.0, 1.0)]
    ensures SortBy(z[..2], ValueOf) == [Weighted(1.0, 1.0 / 3.0), Weighted(7.0, 1.0)]
  {
    var p0, p1, p2, p3, p4 := Weighted(7.0, 1.0), Weighted(1.0, 1.0 / 3.0), Weighted(2.0, 1.0 / 3.0), Weighted(4.0, 1.0 / 3.0), Weighted(10.0, 1.0);
    SevenFromThirdsSortedPrefix1(z);
    SortByStep(z, ValueOf, 1);
    assert InsertBy(p1, [p0], ValueOf) == [p1, p0];
    assert SortBy(z[..2], ValueOf) == [p1, p0];
  }

  lemma {:induction false} SevenFromThirdsSortedPrefix3(z: seq<Weighted>)
    requires z == [Weighted(7.0, 1.0), Weighted(1.0, 1.0 / 3.0), Weighted(2.0, 1.0 / 3.0), Weighted(4.0, 1.0 / 3.0), Weighted(10.0, 1.0)]
    ensures SortBy(z[..3], ValueOf) == [Weighted(1.0, 1.0 / 3.0), Weighted(2.0, 1.0 / 3.0), Weighted(7.0, 1.0)]
  {
    var p0, p1, p2, p3, p4 := Weighted(7.0, 1.0), Weighted(1.0, 1.0 / 3.0), Weighted(2.0, 1.0 / 3.0), Weighted(4.0, 1.0 / 3.0), Weighted(10.0, 1.0);
    SevenFromThirdsSortedPrefix2(z);
    SortByStep(z, ValueOf, 2);
    assert InsertBy(p2, [p0], ValueOf) == [p2, p0];
    assert [p1, p0][1..] == [p0];
    assert InsertBy(p2, [p1, p0], ValueOf) == [p1, p2, p0];
    assert SortBy(z[..3], ValueOf) == [p1, p2, p0];
  }

  lemma {:induction false} SevenFromThirdsSortedPrefix4(z: seq<Weighted>)
    requires z == [Weighted(7.0, 1.0), Weighted(1.0, 1.0 / 3.0), Weighted(2.0, 1.0 / 3.0), Weighted(4.0, 1.0 / 3.0), Weighted(10.0, 1.0)]
    ensures SortBy(z[..4], ValueOf) == [Weighted(1.0, 1.0 / 3.0), Weighted(2.0, 1.0 / 3.0), Weighted(4.0, 1.0 / 3.0), Weighted(7.0, 1.0)]
  {
    var p0, p1, p2, p3, p4 := Weighted(7.0, 1.0), Weighted(1.0, 1.0 / 3.0), Weighted(2.0, 1.0 / 3.0), Weighted(4.0, 1.0 / 3.0), Weighted(10.0, 1.0);
    SevenFromThirdsSortedPrefix3(z);
    SortByStep(z, ValueOf, 3);
    assert InsertBy(p3, [p0], ValueOf) == [p3, p0];
    assert [p2, p0][1..] == [p0];
    assert InsertBy(p3, [p2, p0], ValueOf) == [p2, p3, p0];
    assert [p1, p2, p0][1..] == [p2, p0];
    assert InsertBy(p3, [p1, p2, p0], ValueOf) == [p1, p2, p3, p0];
    assert SortBy(z[..4], ValueOf) == [p1, p2, p3, p0];
  }

  lemma {:induction false} SevenFromThirdsSorted(z: seq<Weighted>)
    requires z == [Weighted(7.0, 1.0), Weighted(1.0, 1.0 / 3.0), Weighted(2.0, 1.0 / 3.0), Weighted(4.0, 1.0 / 3.0), Weighted(10.0, 1.0)]
    ensures SortBy(z, ValueOf) == [Weighted(1.0, 1.0 / 3.0), Weighted(2.0, 1.0 / 3.0), Weighted(4.0, 1.0 / 3.0), Weighted(7.0, 1.0), Weighted(10.0, 1.0)]
  {
    var p0, p1, p2, p3, p4 := Weighted(7.0, 1.0), Weighted(1.0, 1.0 / 3.0), Weighted(2.0, 1.0 / 3.0), Weighted(4.0, 1.0 / 3.0), Weighted(10.0, 1.0);
    SevenFromThirdsSortedPrefix4(z);
    SortByStep(z, ValueOf, 4);
    assert InsertBy(p4, [], ValueOf) == [p4];
    assert [p0][1..] == [];
    assert InsertBy(p4, [p0], ValueOf) == [p0, p4];
    assert [p3, p0][1..] == [p0];
    assert InsertBy(p4, [p3, p0], ValueOf) == [p3, p0, p4];
    assert [p2, p3, p0][1..] == [p3, p0];
    assert InsertBy(p4, [p2, p3, p0], ValueOf) == [p2, p3, p0, p4];
    assert [p1, p2, p3, p0][1..] == [p2, p3, p0];
    assert InsertBy(p4, [p1, p2, p3, p0], ValueOf) == [p1, p2, p3, p0, p4];
    assert SortBy(z[..5], ValueOf) == [p1, p2, p3, p0, p4];
    assert z[..5] == z;
  }

  lemma {:induction false} SevenFromThirdsWeights(ps: seq<Weighted>)
    requires ps == [Weighted(1.0, 1.0 / 3.0), Weighted(2.0, 1.0 / 3.0), Weighted(4.0, 1.0 / 3.0), Weighted(7.0, 1.0), Weighted(10.0, 1.0)]
    ensures SumOf(ps, WeightOf) == 3.0
    ensures WeightAfter(ps, 3) == 1.0
    ensures WeightAfter(ps, 2) == 2.0
  {
    var p0, p1, p2, p3, p4 := Weighted(7.0, 1.0), Weighted(1.0, 1.0 / 3.0), Weighted(2.0, 1.0 / 3.0), Weighted(4.0, 1.0 / 3.0), Weighted(10.0, 1.0);
    assert ps == [p1, p2, p3, p0, p4];
    assert ps[5..] == [];
    assert WeightAfter(ps, 4) == 0.0;
    WeightAfterStep(ps, 3);
    assert WeightAfter(ps, 3) == 1.0;
    WeightAfterStep(ps, 2);
    assert WeightAfter(ps, 2) == 2.0;
    WeightAfterStep(ps, 1);
    assert WeightAfter(ps, 1) == 7.0 / 3.0;
    WeightAfterStep(ps, 0);
    assert WeightAfter(ps, 0) == 8.0 / 3.0;
  }

  /** The case of index.test.js:14-18: the weighted median of these values and weights is 7. */
  lemma {:induction false} SevenFromThirds(values: seq<real>, weights: seq<real>)
    requires values == [7.0, 1.0, 2.0, 4.0, 10.0]
    requires weights == [1.0, 1.0 / 3.0, 1.0 / 3.0, 1.0 / 3.0, 1.0]
    ensures WeightedInput(values, weights)
    ensures WeightedMedianOf(values, weights) == 7.0
    ensures WeightedMedianRoundedOf(values, weights) == 7.0
  {
    var p0, p1, p2, p3, p4 := Weighted(7.0, 1.0), Weighted(1.0, 1.0 / 3.0), Weighted(2.0, 1.0 / 3.0), Weighted(4.0, 1.0 / 3.0), Weighted(10.0, 1.0);
    var z := Zip(values, weights);
    assert z == [p0, p1, p2, p3, p4];
    SevenFromThirdsSorted(z);
    var ps := SortBy(z, ValueOf);
    assert ps == [p1, p2, p3, p0, p4];
    SevenFromThirdsWeights(ps);
    SumOfSort(z, ValueOf, WeightOf);
    ZipWeights(values, weights);
    MedianAt(ps, 3);
    RoundedAgreesAt(ps, 3);
  }

  lemma {:induction false} UnitWeightsSortedPrefix1(z: seq<Weighted>)
    requires z == [Weighted(7.0, 1.0), Weighted(1.0, 1.0), Weighted(2.0, 1.0), Weighted(4.0, 1.0), Weighted(10.0, 1.0)]
    ensures SortBy(z[..1], ValueOf) == [Weighted(7.0, 1.0)]
  {
    var p0, p1, p2, p3, p4 := Weighted(7.0, 1.0), Weighted(1.0, 1.0), Weighted(2.0, 1.0), Weighted(4.0, 1.0), Weighted(10.0, 1.0);
    assert z[..0] == [];
    SortByStep(z, ValueOf, 0);
    assert InsertBy(p0, [], ValueOf) == [p0];
    assert SortBy(z[..1], ValueOf) == [p0];
  }

  lemma {:induction false} UnitWeightsSortedPrefix2(z: seq<Weighted>)
    requires z == [Weighted(7.0, 1.0), Weighted(1.0, 1.0), Weighted(2.0, 1.0), Weighted(4.0, 1.0), Weighted(10.0, 1.0)]
    ensures SortBy(z[..2], ValueOf) == [Weighted(1.0, 1.0), Weighted(7.0, 1.0)]
  {
    var p0, p1, p2, p3, p4 := Weighted(7.0, 1.0), Weighted(1.0, 1.0), Weighted(2.0, 1.0), Weighted(4.0, 1.0), Weighted(10.0, 1.0);
    UnitWeightsSortedPrefix1(z);
    SortByStep(z, ValueOf, 1);
    assert InsertBy(p1, [p0], ValueOf) == [p1, p0];
    assert SortBy(z[..2], ValueOf) == [p1, p0];
  }

  lemma {:induction false} UnitWeightsSortedPrefix3(z: seq<Weighted>)
    requires z == [Weighted(7.0, 1.0), Weighted(1.0, 1.0), Weighted(2.0, 1.0), Weighted(4.0, 1.0), Weighted(10.0, 1.0)]
    ensures SortBy(z[..3], ValueOf) == [Weighted(1.0, 1.0), Weighted(2.0, 1.0), Weighted(7.0, 1.0)]
  {
    var p0, p1, p2, p3, p4 := Weighted(7.0, 1.0), Weighted(1.0, 1.0), Weighted(2.0, 1.0), Weighted(4.0, 1.0), Weighted(10.0, 1.0);
    UnitWeightsSortedPrefix2(z);
    SortByStep(z, ValueOf, 2);
    assert InsertBy(p2, [p0], ValueOf) == [p2, p0];
    assert [p1, p0][1..] == [p0];
    assert InsertBy(p2, [p1, p0], ValueOf) == [p1, p2, p0];
    assert SortBy(z[..3], ValueOf) == [p1, p2, p0];
  }

  lemma {:induction false} UnitWeightsSortedPrefix4(z: seq<Weighted>)
    requires z == [Weighted(7.0, 1.0), Weighted(1.0, 1.0), Weighted(2.0, 1.0), Weighted(4.0, 1.0), Weighted(10.0, 1.0)]
    ensures SortBy(z[..4], ValueOf) == [Weighted(1.0, 1.0), Weighted(2.0, 1.0), Weighted(4.0, 1.0), Weighted(7.0, 1.0)]
  {
    var p0, p1, p2, p3, p4 := Weighted(7.0, 1.0), Weighted(1.0, 1.0), Weighted(2.0, 1.0), Weighted(4.0, 1.0), Weighted(10.0, 1.0);
    UnitWeightsSortedPrefix3(z);
    SortByStep(z, ValueOf, 3);
    assert InsertBy(p3, [p0], ValueOf) == [p3, p0];
    assert [p2, p0][1..] == [p0];
    assert InsertBy(p3, [p2, p0], ValueOf) == [p2, p3, p0];
    assert [p1, p2, p0][1..] == [p2, p0];
    assert InsertBy(p3, [p1, p2, p0], ValueOf) == [p1, p2, p3, p0];
    assert SortBy(z[..4], ValueOf) == [p1, p2, p3, p0];
  }

  lemma {:induction false} UnitWeightsSorted(z: seq<Weighted>)
    requires z == [Weighted(7.0, 1.0), Weighted(1.0, 1.0), Weighted(2.0, 1.0), Weighted(4.0, 1.0), Weighted(10.0, 1.0)]
    ensures SortBy(z, ValueOf) == [Weighted(1.0, 1.0), Weighted(2.0, 1.0), Weighted(4.0, 1.0), Weighted(7.0, 1.0), Weighted(10.0, 1.0)]
  {
    var p0, p1, p2, p3, p4 := Weighted(7.0, 1.0), Weighted(1.0, 1.0), Weighted(2.0, 1.0), Weighted(4.0, 1.0), Weighted(10.0, 1.0);
    UnitWeightsSortedPrefix4(z);
    SortByStep(z, ValueOf, 4);
    assert InsertBy(p4, [], ValueOf) == [p4];
    assert [p0][1..] == [];
    assert InsertBy(p4, [p0], ValueOf) == [p0, p4];
    assert [p3, p0][1..] == [p0];
    assert InsertBy(p4, [p3, p0], ValueOf) == [p3, p0, p4];
    assert [p2, p3, p0][1..] == [p3, p0];
    assert InsertBy(p4, [p2, p3, p0], ValueOf) == [p2, p3, p0, p4];
    assert [p1, p2, p3, p0][1..] == [p2, p3, p0];
    assert InsertBy(p4, [p1, p2, p3, p0], ValueOf) == [p1, p2, p3, p0, p4];
    assert SortBy(z[..5], ValueOf) == [p1, p2, p3, p0, p4];
    assert z[..5] == z;
  }

  lemma {:induction false} UnitWeightsWeights(ps: seq<Weighted>)
    requires ps == [Weighted(1.0, 1.0), Weighted(2.0, 1.0), Weighted(4.0, 1.0), Weighted(7.0, 1.0), Weighted(10.0, 1.0)]
    ensures SumOf(ps, WeightOf) == 5.0
    ensures WeightAfter(ps, 2) == 2.0
    ensures WeightAfter(ps, 1) == 3.0
  {
    var p0, p1, p2, p3, p4 := Weighted(7.0, 1.0), Weighted(1.0, 1.0), Weighted(2.0, 1.0), Weighted(4.0, 1.0), Weighted(10.0, 1.0);
    assert ps == [p1, p2, p3, p0, p4];
    assert ps[5..] == [];
    assert WeightAfter(ps, 4) == 0.0;
    WeightAfterStep(ps, 3);
    assert WeightAfter(ps, 3) == 1.0;
    WeightAfterStep(ps, 2);
    assert WeightAfter(ps, 2) == 2.0;
    WeightAfterStep(ps, 1);
    assert WeightAfter(ps, 1) == 3.0;
    WeightAfterStep(ps, 0);
    assert WeightAfter(ps, 0) == 4.0;
  }

  /** The case of index.test.js:19-23: the weighted median of these values and weights is 4. */
  lemma {:induction false} UnitWeights(values: seq<real>, weights: seq<real>)
    requires values == [7.0, 1.0, 2.0, 4.0, 10.0]
    requires weights == [1.0, 1.0, 1.0, 1.0, 1.0]
    ensures WeightedInput(values, weights)
    ensures WeightedMedianOf(values, weights) == 4.0
    ensures WeightedMedianRoundedOf(values, weights) == 4.0
  {
    var p0, p1, p2, p3, p4 := Weighted(7.0, 1.0), Weighted(1.0, 1.0), Weighted(2.0, 1.0), Weighted(4.0, 1.0), Weighted(10.0, 1.0);
    var z := Zip(values, weights);
    assert z == [p0, p1, p2, p3, p4];
    UnitWeightsSorted(z);
    var ps := SortBy(z, ValueOf);
    assert ps == [p1, p2, p3, p0, p4];
    UnitWeightsWeights(ps);
    SumOfSort(z, ValueOf, WeightOf);
    ZipWeights(values, weights);
    MedianAt(ps, 2);
    RoundedAgreesAt(ps, 2);
  }

  lemma {:induction false} EvenTieSortedPrefix1(z: seq<Weighted>)
    requires z == [Weighted(7.0, 1.0), Weighted(1.0, 1.0 / 3.0), Weighted(2.0, 1.0 / 3.0), Weighted(4.0, 1.0 / 3.0), Weighted(10.0, 1.0), Weighted(15.0, 1.0)]
    ensures SortBy(z[..1], ValueOf) == [Weighted(7.0, 1.0)]
  {
    var p0, p1, p2, p3, p4, p5 := Weighted(7.0, 1.0), Weighted(1.0, 1.0 / 3.0), Weighted(2.0, 1.0 / 3.0), Weighted(4.0, 1.0 / 3.0), Weighted(10.0, 1.0), Weighted(15.0, 1.0);
    assert z[..0] == [];
    SortByStep(z, ValueOf, 0);
    assert InsertBy(p0, [], ValueOf) == [p0];
    assert SortBy(z[..1], ValueOf) == [p0];
  }

  lemma {:induction false} EvenTieSortedPrefix2(z: seq<Weighted>)
    requires z == [Weighted(7.0, 1.0), Weighted(1.0, 1.0 / 3.0), Weighted(2.0, 1.0 / 3.0), Weighted(4.0, 1.0 / 3.0), Weighted(10.0, 1.0), Weighted(15.0, 1.0)]
    ensures SortBy(z[..2], ValueOf) == [Weighted(1.0, 1.0 / 3.0), Weighted(7.0, 1.0)]
  {
    var p0, p1, p2, p3, p4, p5 := Weighted(7.0, 1.0), Weighted(1.0, 1.0 / 3.0), Weighted(2.0, 1.0 / 3.0), Weighted(4.0, 1.0 / 3.0), Weighted(10.0, 1.0), Weighted(15.0, 1.0);
    EvenTieSortedPrefix1(z);
    SortByStep(z, ValueOf, 1);
    assert InsertBy(p1, [p0], ValueOf) == [p1, p0];
    assert SortBy(z[..2], ValueOf) == [p1, p0];
  }

  lemma {:induction false} EvenTieSortedPrefix3(z: seq<Weighted>)
    requires z == [Weighted(7.0, 1.0), Weighted(1.0, 1.0 / 3.0), Weighted(2.0, 1.0 / 3.0), Weighted(4.0, 1.0 / 3.0), Weighted(10.0, 1.0), Weighted(15.0, 1.0)]
    ensures SortBy(z[..3], ValueOf) == [Weighted(1.0, 1.0 / 3.0), Weighted(2.0, 1.0 / 3.0), Weighted(7.0, 1.0)]
  {
    var p0, p1, p2, p3, p4, p5 := Weighted(7.0, 1.0), Weighted(1.0, 1.0 / 3.0), Weighted(2.0, 1.0 / 3.0), Weighted(4.0, 1.0 / 3.0), Weighted(10.0, 1.0), Weighted(15.0, 1.0);
    EvenTieSortedPrefix2(z);
    SortByStep(z, ValueOf, 2);
    assert InsertBy(p2, [p0], ValueOf) == [p2, p0];
    assert [p1, p0][1..] == [p0];
    assert InsertBy(p2, [p1, p0], ValueOf) == [p1, p2, p0];
    assert SortBy(z[..3], ValueOf) == [p1, p2, p0];
  }

  lemma {:induction false} EvenTieSortedPrefix4(z: seq<Weighted>)
    requires z == [Weighted(7.0, 1.0), Weighted(1.0, 1.0 / 3.0), Weighted(2.0, 1.0 / 3.0), Weighted(4.0, 1.0 / 3.0), Weighted(10.0, 1.0), Weighted(15.0, 1.0)]
    ensures SortBy(z[..4], ValueOf) == [Weighted(1.0, 1.0 / 3.0), Weighted(2.0, 1.0 / 3.0), Weighted(4.0, 1.0 / 3.0), Weighted(7.0, 1.0)]
  {
    var p0, p1, p2, p3, p4, p5 := Weighted(7.0, 1.0), Weighted(1.0, 1.0 / 3.0), Weighted(2.0, 1.0 / 3.0), Weighted(4.0, 1.0 / 3.0), Weighted(10.0, 1.0), Weighted(15.0, 1.0);
    EvenTieSortedPrefix3(z);
    SortByStep(z, ValueOf, 3);
    assert InsertBy(p3, [p0], ValueOf) == [p3, p0];
    assert [p2, p0][1..] == [p0];
    assert InsertBy(p3, [p2, p0], ValueOf) == [p2, p3, p0];
    assert [p1, p2, p0][1..] == [p2, p0];
    assert InsertBy(p3, [p1, p2, p0], ValueOf) == [p1, p2, p3, p0];
    assert SortBy(z[..4], ValueOf) == [p1, p2, p3, p0];
  }

  lemma {:induction false} EvenTieSortedPrefix5(z: seq<Weighted>)
    requires z == [Weighted(7.0, 1.0), Weighted(1.0, 1.0 / 3.0), Weighted(2.0, 1.0 / 3.0), Weighted(4.0, 1.0 / 3.0), Weighted(10.0, 1.0), Weighted(15.0, 1.0)]
    ensures SortBy(z[..5], ValueOf) == [Weighted(1.0, 1.0 / 3.0), Weighted(2.0, 1.0 / 3.0), Weighted(4.0, 1.0 / 3.0), Weighted(7.0, 1.0), Weighted(10.0, 1.0)]
  {
    var p0, p1, p2, p3, p4, p5 := Weighted(7.0, 1.0), Weighted(1.0, 1.0 / 3.0), Weighted(2.0, 1.0 / 3.0), Weighted(4.0, 1.0 / 3.0), Weighted(10.0, 1.0), Weighted(15.0, 1.0);
    EvenTieSortedPrefix4(z);
    SortByStep(z, ValueOf, 4);
    assert InsertBy(p4, [], ValueOf) == [p4];
    assert [p0][1..] == [];
    assert InsertBy(p4, [p0], ValueOf) == [p0, p4];
    assert [p3, p0][1..] == [p0];
    assert InsertBy(p4, [p3, p0], ValueOf) == [p3, p0, p4];
    assert [p2, p3, p0][1..] == [p3, p0];
    assert InsertBy(p4, [p2, p3, p0], ValueOf) == [p2, p3, p0, p4];
    assert [p1, p2, p3, p0][1..] == [p2, p3, p0];
    assert InsertBy(p4, [p1, p2, p3, p0], ValueOf) == [p1, p2, p3, p0, p4];
    assert SortBy(z[..5], ValueOf) == [p1, p2, p3, p0, p4];
  }

  lemma {:induction false} EvenTieSorted(z: seq<Weighted>)
    requires z == [Weighted(7.0, 1.0), Weighted(1.0, 1.0 / 3.0), Weighted(2.0, 1.0 / 3.0), Weighted(4.0, 1.0 / 3.0), Weighted(10.0, 1.0), Weighted(15.0, 1.0)]
    ensures SortBy(z, ValueOf) == [Weighted(1.0, 1.0 / 3.0), Weighted(2.0, 1.0 / 3.0), Weighted(4.0, 1.0 / 3.0), Weighted(7.0, 1.0), Weighted(10.0, 1.0), Weighted(15.0, 1.0)]
  {
    var p0, p1, p2, p3, p4, p5 := Weighted(7.0, 1.0), Weighted(1.0, 1.0 / 3.0), Weighted(2.0, 1.0 / 3.0), Weighted(4.0, 1.0 / 3.0), Weighted(10.0, 1.0), Weighted(15.0, 1.0);
    EvenTieSortedPrefix5(z);
    SortByStep(z, ValueOf, 5);
    assert InsertBy(p5, [], ValueOf) == [p5];
    assert [p4][1..] == [];
    assert InsertBy(p5, [p4], ValueOf) == [p4, p5];
    assert [p0, p4][1..] == [p4];
    assert InsertBy(p5, [p0, p4], ValueOf) == [p0, p4, p5];
    assert [p3, p0, p4][1..] == [p0, p4];
    assert InsertBy(p5, [p3, p0, p4], ValueOf) == [p3, p0, p4, p5];
    assert [p2, p3, p0, p4][1..] == [p3, p0, p4];
    assert InsertBy(p5, [p2, p3, p0, p4], ValueOf) == [p2, p3, p0, p4, p5];
    assert [p1, p2, p3, p0, p4][1..] == [p2, p3, p0, p4];
    assert InsertBy(p5, [p1, p2, p3, p0, p4], ValueOf) == [p1, p2, p3, p0, p4, p5];
    assert SortBy(z[..6], ValueOf) == [p1, p2, p3, p0, p4, p5];
    assert z[..6] == z;
  }

  lemma {:induction false} EvenTieWeights(ps: seq<Weighted>)
    requires ps == [Weighted(1.0, 1.0 / 3.0), Weighted(2.0, 1.0 / 3.0), Weighted(4.0, 1.0 / 3.0), Weighted(7.0, 1.0), Weighted(10.0, 1.0), Weighted(15.0, 1.0)]
    ensures SumOf(ps, WeightOf) == 4.0
    ensures WeightAfter(ps, 3) == 2.0
    ensures WeightAfter(ps, 2) == 3.0
  {
    var p0, p1, p2, p3, p4, p5 := Weighted(7.0, 1.0), Weighted(1.0, 1.0 / 3.0), Weighted(2.0, 1.0 / 3.0), Weighted(4.0, 1.0 / 3.0), Weighted(10.0, 1.0), Weighted(15.0, 1.0);
    assert ps == [p1, p2, p3, p0, p4, p5];
    assert ps[6..] == [];
    assert WeightAfter(ps, 5) == 0.0;
    WeightAfterStep(ps, 4);
    assert WeightAfter(ps, 4) == 1.0;
    WeightAfterStep(ps, 3);
    assert WeightAfter(ps, 3) == 2.0;
    WeightAfterStep(ps, 2);
    assert WeightAfter(ps, 2) == 3.0;
    WeightAfterStep(ps, 1);
    assert WeightAfter(ps, 1) == 10.0 / 3.0;
    WeightAfterStep(ps, 0);
    assert WeightAfter(ps, 0) == 11.0 / 3.0;
  }

  /** The case of index.test.js:24-28: the weighted median of these values and weights is 8.5, the mean of 7 and 10 on an exact tie. */
  lemma {:induction false} EvenTie(values: seq<real>, weights: seq<real>)
    requires values == [7.0, 1.0, 2.0, 4.0, 10.0, 15.0]
    requires weights == [1.0, 1.0 / 3.0, 1.0 / 3.0, 1.0 / 3.0, 1.0, 1.0]
    ensures WeightedInput(values, weights)
    ensures WeightedMedianOf(values, weights) == 17.0 / 2.0
    ensures WeightedMedianRoundedOf(values, weights) == 17.0 / 2.0
  {
    var p0, p1, p2, p3, p4, p5 := Weighted(7.0, 1.0), Weighted(1.0, 1.0 / 3.0), Weighted(2.0, 1.0 / 3.0), Weighted(4.0, 1.0 / 3.0), Weighted(10.0, 1.0), Weighted(15.0, 1.0);
    var z := Zip(values, weights);
    assert z == [p0, p1, p2, p3, p4, p5];
    EvenTieSorted(z);
    var ps := SortBy(z, ValueOf);
    assert ps == [p1, p2, p3, p0, p4, p5];
    EvenTieWeights(ps);
    SumOfSort(z, ValueOf, WeightOf);
    ZipWeights(values, weights);
    MedianAt(ps, 3);
    RoundedAgreesAt(ps, 3);
  }

  lemma {:induction false} EvenTiePresortedSortedPrefix1(z: seq<Weighted>)
    requires z == [Weighted(1.0, 1.0 / 3.0), Weighted(2.0, 1.0 / 3.0), Weighted(4.0, 1.0 / 3.0), Weighted(7.0, 1.0), Weighted(10.0, 1.0), Weighted(15.0, 1.0)]
    ensures SortBy(z[..1], ValueOf) == [Weighted(1.0, 1.0 / 3.0)]
  {
    var p0, p1, p2, p3, p4, p5 := Weighted(1.0, 1.0 / 3.0), Weighted(2.0, 1.0 / 3.0), Weighted(4.0, 1.0 / 3.0), Weighted(7.0, 1.0), Weighted(10.0, 1.0), Weighted(15.0, 1.0);
    assert z[..0] == [];
    SortByStep(z, ValueOf, 0);
    assert InsertBy(p0, [], ValueOf) == [p0];
    assert SortBy(z[..1], ValueOf) == [p0];
  }

  lemma {:induction false} EvenTiePresortedSortedPrefix2(z: seq<Weighted>)
    requires z == [Weighted(1.0, 1.0 / 3.0), Weighted(2.0, 1.0 / 3.0), Weighted(4.0, 1.0 / 3.0), Weighted(7.0, 1.0), Weighted(10.0, 1.0), Weighted(15.0, 1.0)]
    ensures SortBy(z[..2], ValueOf) == [Weighted(1.0, 1.0 / 3.0), Weighted(2.0, 1.0 / 3.0)]
  {
    var p0, p1, p2, p3, p4, p5 := Weighted(1.0, 1.0 / 3.0), Weighted(2.0, 1.0 / 3.0), Weighted(4.0, 1.0 / 3.0), Weighted(7.0, 1.0), Weighted(10.0, 1.0), Weighted(15.0, 1.0);
    EvenTiePresortedSortedPrefix1(z);
    SortByStep(z, ValueOf, 1);
    assert InsertBy(p1, [], ValueOf) == [p1];
    assert [p0][1..] == [];
    assert InsertBy(p1, [p0], ValueOf) == [p0, p1];
    assert SortBy(z[..2], ValueOf) == [p0, p1];
  }

  lemma {:induction false} EvenTiePresortedSortedPrefix3(z: seq<Weighted>)
    requires z == [Weighted(1.0, 1.0 / 3.0), Weighted(2.0, 1.0 / 3.0), Weighted(4.0, 1.0 / 3.0), Weighted(7.0, 1.0), Weighted(10.0, 1.0), Weighted(15.0, 1.0)]
    ensures SortBy(z[..3], ValueOf) == [Weighted(1.0, 1.0 / 3.0), Weighted(2.0, 1.0 / 3.0), Weighted(4.0, 1.0 / 3.0)]
  {
    var p0, p1, p2, p3, p4, p5 := Weighted(1.0, 1.0 / 3.0), Weighted(2.0, 1.0 / 3.0), Weighted(4.0, 1.0 / 3.0), Weighted(7.0, 1.0), Weighted(10.0, 1.0), Weighted(15.0, 1.0);
    EvenTiePresortedSortedPrefix2(z);
    SortByStep(z, ValueOf, 2);
    assert InsertBy(p2, [], ValueOf) == [p2];
    assert [p1][1..] == [];
    assert InsertBy(p2, [p1], ValueOf) == [p1, p2];
    assert [p0, p1][1..] == [p1];
    assert InsertBy(p2, [p0, p1], ValueOf) == [p0, p1, p2];
    assert SortBy(z[..3], ValueOf) == [p0, p1, p2];
  }

  lemma {:induction false} EvenTiePresortedSortedPrefix4(z: seq<Weighted>)
    requires z == [Weighted(1.0, 1.0 / 3.0), Weighted(2.0, 1.0 / 3.0), Weighted(4.0, 1.0 / 3.0), Weighted(7.0, 1.0), Weighted(10.0, 1.0), Weighted(15.0, 1.0)]
    ensures SortBy(z[..4], ValueOf) == [Weighted(1.0, 1.0 / 3.0), Weighted(2.0, 1.0 / 3.0), Weighted(4.0, 1.0 / 3.0), Weighted(7.0, 1.0)]
  {
    var p0, p1, p2, p3, p4, p5 := Weighted(1.0, 1.0 / 3.0), Weighted(2.0, 1.0 / 3.0), Weighted(4.0, 1.0 / 3.0), Weighted(7.0, 1.0), Weighted(10.0, 1.0), Weighted(15.0, 1.0);
    EvenTiePresortedSortedPrefix3(z);
    SortByStep(z, ValueOf, 3);
    assert InsertBy(p3, [], ValueOf) == [p3];
    assert [p2][1..] == [];
    assert InsertBy(p3, [p2], ValueOf) == [p2, p3];
    assert [p1, p2][1..] == [p2];
    assert InsertBy(p3, [p1, p2], ValueOf) == [p1, p2, p3];
    assert [p0, p1, p2][1..] == [p1, p2];
    assert InsertBy(p3, [p0, p1, p2], ValueOf) == [p0, p1, p2, p3];
    assert SortBy(z[..4], ValueOf) == [p0, p1, p2, p3];
  }

  lemma {:induction false} EvenTiePresortedSortedPrefix5(z: seq<Weighted>)
    requires z == [Weighted(1.0, 1.0 / 3.0), Weighted(2.0, 1.0 / 3.0), Weighted(4.0, 1.0 / 3.0), Weighted(7.0, 1.0), Weighted(10.0, 1.0), Weighted(15.0, 1.0)]
    ensures SortBy(z[..5], ValueOf) == [Weighted(1.0, 1.0 / 3.0), Weighted(2.0, 1.0 / 3.0), Weighted(4.0, 1.0 / 3.0), Weighted(7.0, 1.0), Weighted(10.0, 1.0)]
  {
    var p0, p1, p2, p3, p4, p5 := Weighted(1.0, 1.0 / 3.0), Weighted(2.0, 1.0 / 3.0), Weighted(4.0, 1.0 / 3.0), Weighted(7.0, 1.0), Weighted(10.0, 1.0), Weighted(15.0, 1.0);
    EvenTiePresortedSortedPrefix4(z);
    SortByStep(z, ValueOf, 4);
    assert InsertBy(p4, [], ValueOf) == [p4];
    assert [p3][1..] == [];
    assert InsertBy(p4, [p3], ValueOf) == [p3, p4];
    assert [p2, p3][1..] == [p3];
    assert InsertBy(p4, [p2, p3], ValueOf) == [p2, p3, p4];
    assert [p1, p2, p3][1..] == [p2, p3];
    assert InsertBy(p4, [p1, p2, p3], ValueOf) == [p1, p2, p3, p4];
    assert [p0, p1, p2, p3][1..] == [p1, p2, p3];
    assert InsertBy(p4, [p0, p1, p2, p3], ValueOf) == [p0, p1, p2, p3, p4];
    assert SortBy(z[..5], ValueOf) == [p0, p1, p2, p3, p4];
  }

  lemma {:induction false} EvenTiePresortedSorted(z: seq<Weighted>)
    requires z == [Weighted(1.0, 1.0 / 3.0), Weighted(2.0, 1.0 / 3.0), Weighted(4.0, 1.0 / 3.0), Weighted(7.0, 1.0), Weighted(10.0, 1.0), Weighted(15.0, 1.0)]
    ensures SortBy(z, ValueOf) == [Weighted(1.0, 1.0 / 3.0), Weighted(2.0, 1.0 / 3.0), Weighted(4.0, 1.0 / 3.0), Weighted(7.0, 1.0), Weighted(10.0, 1.0), Weighted(15.0, 1.0)]
  {
    var p0, p1, p2, p3, p4, p5 := Weighted(1.0, 1.0 / 3.0), Weighted(2.0, 1.0 / 3.0), Weighted(4.0, 1.0 / 3.0), Weighted(7.0, 1.0), Weighted(10.0, 1.0), Weighted(15.0, 1.0);
    EvenTiePresortedSortedPrefix5(z);
    SortByStep(z, ValueOf, 5);
    assert InsertBy(p5, [], ValueOf) == [p5];
    assert [p4][1..] == [];
    assert InsertBy(p5, [p4], ValueOf) == [p4, p5];
    assert [p3, p4][1..] == [p4];
    assert InsertBy(p5, [p3, p4], ValueOf) == [p3, p4, p5];
    assert [p2, p3, p4][1..] == [p3, p4];
    assert InsertBy(p5, [p2, p3, p4], ValueOf) == [p2, p3, p4, p5];
    assert [p1, p2, p3, p4][1..] == [p2, p3, p4];
    assert InsertBy(p5, [p1, p2, p3, p4], ValueOf) == [p1, p2, p3, p4, p5];
    assert [p0, p1, p2, p3, p4][1..] == [p1, p2, p3, p4];
    assert InsertBy(p5, [p0, p1, p2, p3, p4], ValueOf) == [p0, p1, p2, p3, p4, p5];
    assert SortBy(z[..6], ValueOf) == [p0, p1, p2, p3, p4, p5];
    assert z[..6] == z;
  }

  lemma {:induction false} EvenTiePresortedWeights(ps: seq<Weighted>)
    requires ps == [Weighted(1.0, 1.0 / 3.0), Weighted(2.0, 1.0 / 3.0), Weighted(4.0, 1.0 / 3.0), Weighted(7.0, 1.0), Weighted(10.0, 1.0), Weighted(15.0, 1.0)]
    ensures SumOf(ps, WeightOf) == 4.0
    ensures WeightAfter(ps, 3) == 2.0
    ensures WeightAfter(ps, 2) == 3.0
  {
    var p0, p1, p2, p3, p4, p5 := Weighted(1.0, 1.0 / 3.0), Weighted(2.0, 1.0 / 3.0), Weighted(4.0, 1.0 / 3.0), Weighted(7.0, 1.0), Weighted(10.0, 1.0), Weighted(15.0, 1.0);
    assert ps == [p0, p1, p2, p3, p4, p5];
    assert ps[6..] == [];
    assert WeightAfter(ps, 5) == 0.0;
    WeightAfterStep(ps, 4);
    assert WeightAfter(ps, 4) == 1.0;
    WeightAfterStep(ps, 3);
    assert WeightAfter(ps, 3) == 2.0;
    WeightAfterStep(ps, 2);
    assert WeightAfter(ps, 2) == 3.0;
    WeightAfterStep(ps, 1);
    assert WeightAfter(ps, 1) == 10.0 / 3.0;
    WeightAfterStep(ps, 0);
    assert WeightAfter(ps, 0) == 11.0 / 3.0;
  }

  /** The case of index.test.js:29-33: the weighted median of these values and weights is 8.5. */
  lemma {:induction false} EvenTiePresorted(values: seq<real>, weights: seq<real>)
    requires values == [1.0, 2.0, 4.0, 7.0, 10.0, 15.0]
    requires weights == [1.0 / 3.0, 1.0 / 3.0, 1.0 / 3.0, 1.0, 1.0, 1.0]
    ensures WeightedInput(values, weights)
    ensures WeightedMedianOf(values, weights) == 17.0 / 2.0
    ensures WeightedMedianRoundedOf(values, weights) == 17.0 / 2.0
  {
    var p0, p1, p2, p3, p4, p5 := Weighted(1.0, 1.0 / 3.0), Weighted(2.0, 1.0 / 3.0), Weighted(4.0, 1.0 / 3.0), Weighted(7.0, 1.0), Weighted(10.0, 1.0), Weighted(15.0, 1.0);
    var z := Zip(values, weights);
    assert z == [p0, p1, p2, p3, p4, p5];
    EvenTiePresortedSorted(z);
    var ps := SortBy(z, ValueOf);
    assert ps == [p0, p1, p2, p3, p4, p5];
    EvenTiePresortedWeights(ps);
    SumOfSort(z, ValueOf, WeightOf);
    ZipWeights(values, weights);
    MedianAt(ps, 3);
    RoundedAgreesAt(ps, 3);
  }

  lemma {:induction false} HeavySecondSortedPrefix1(z: seq<Weighted>)
    requires z == [Weighted(0.0, 30.0), Weighted(10.0, 191.0), Weighted(20.0, 9.0), Weighted(30.0, 0.0)]
    ensures SortBy(z[..1], ValueOf) == [Weighted(0.0, 30.0)]
  {
    var p0, p1, p2, p3 := Weighted(0.0, 30.0), Weighted(10.0, 191.0), Weighted(20.0, 9.0), Weighted(30.0, 0.0);
    assert z[..0] == [];
    SortByStep(z, ValueOf, 0);
    assert InsertBy(p0, [], ValueOf) == [p0];
    assert SortBy(z[..1], ValueOf) == [p0];
  }

  lemma {:induction false} HeavySecondSortedPrefix2(z: seq<Weighted>)
    requires z == [Weighted(0.0, 30.0), Weighted(10.0, 191.0), Weighted(20.0, 9.0), Weighted(30.0, 0.0)]
    ensures SortBy(z[..2], ValueOf) == [Weighted(0.0, 30.0), Weighted(10.0, 191.0)]
  {
    var p0, p1, p2, p3 := Weighted(0.0, 30.0), Weighted(10.0, 191.0), Weighted(20.0, 9.0), Weighted(30.0, 0.0);
    HeavySecondSortedPrefix1(z);
    SortByStep(z, ValueOf, 1);
    assert InsertBy(p1, [], ValueOf) == [p1];
    assert [p0][1..] == [];
    assert InsertBy(p1, [p0], ValueOf) == [p0, p1];
    assert SortBy(z[..2], ValueOf) == [p0, p1];
  }

  lemma {:induction false} HeavySecondSortedPrefix3(z: seq<Weighted>)
    requires z == [Weighted(0.0, 30.0), Weighted(10.0, 191.0), Weighted(20.0, 9.0), Weighted(30.0, 0.0)]
    ensures SortBy(z[..3], ValueOf) == [Weighted(0.0, 30.0), Weighted(10.0, 191.0), Weighted(20.0, 9.0)]
  {
    var p0, p1, p2, p3 := Weighted(0.0, 30.0), Weighted(10.0, 191.0), Weighted(20.0, 9.0), Weighted(30.0, 0.0);
    HeavySecondSortedPrefix2(z);
    SortByStep(z, ValueOf, 2);
    assert InsertBy(p2, [], ValueOf) == [p2];
    assert [p1][1..] == [];
    assert InsertBy(p2, [p1], ValueOf) == [p1, p2];
    assert [p0, p1][1..] == [p1];
    assert InsertBy(p2, [p0, p1], ValueOf) == [p0, p1, p2];
    assert SortBy(z[..3], ValueOf) == [p0, p1, p2];
  }

  lemma {:induction false} HeavySecondSorted(z: seq<Weighted>)
    requires z == [Weighted(0.0, 30.0), Weighted(10.0, 191.0), Weighted(20.0, 9.0), Weighted(30.0, 0.0)]
    ensures SortBy(z, ValueOf) == [Weighted(0.0, 30.0), Weighted(10.0, 191.0), Weighted(20.0, 9.0), Weighted(30.0, 0.0)]
  {
    var p0, p1, p2, p3 := Weighted(0.0, 30.0), Weighted(10.0, 191.0), Weighted(20.0, 9.0), Weighted(30.0, 0.0);
    HeavySecondSortedPrefix3(z);
    SortByStep(z, ValueOf, 3);
    assert InsertBy(p3, [], ValueOf) == [p3];
    assert [p2][1..] == [];
    assert InsertBy(p3, [p2], ValueOf) == [p2, p3];
    assert [p1, p2][1..] == [p2];
    assert InsertBy(p3, [p1, p2], ValueOf) == [p1, p2, p3];
    assert [p0, p1, p2][1..] == [p1, p2];
    assert InsertBy(p3, [p0, p1, p2], ValueOf) == [p0, p1, p2, p3];
    assert SortBy(z[..4], ValueOf) == [p0, p1, p2, p3];
    assert z[..4] == z;
  }

  lemma {:induction false} HeavySecondWeights(ps: seq<Weighted>)
    requires ps == [Weighted(0.0, 30.0), Weighted(10.0, 191.0), Weighted(20.0, 9.0), Weighted(30.0, 0.0)]
    ensures SumOf(ps, WeightOf) == 230.0
    ensures WeightAfter(ps, 1) == 9.0
    ensures WeightAfter(ps, 0) == 200.0
  {
    var p0, p1, p2, p3 := Weighted(0.0, 30.0), Weighted(10.0, 191.0), Weighted(20.0, 9.0), Weighted(30.0, 0.0);
    assert ps == [p0, p1, p2, p3];
    assert ps[4..] == [];
    assert WeightAfter(ps, 3) == 0.0;
    WeightAfterStep(ps, 2);
    assert WeightAfter(ps, 2) == 0.0;
    WeightAfterStep(ps, 1);
    assert WeightAfter(ps, 1) == 9.0;
    WeightAfterStep(ps, 0);
    assert WeightAfter(ps, 0) == 200.0;
  }

  /** The case of index.test.js:34-38: the weighted median of these values and weights is 10. */
  lemma {:induction false} HeavySecond(values: seq<real>, weights: seq<real>)
    requires values == [0.0, 10.0, 20.0, 30.0]
    requires weights == [30.0, 191.0, 9.0, 0.0]
    ensures WeightedInput(values, weights)
    ensures WeightedMedianOf(values, weights) == 10.0
    ensures WeightedMedianRoundedOf(values, weights) == 10.0
  {
    var p0, p1, p2, p3 := Weighted(0.0, 30.0), Weighted(10.0, 191.0), Weighted(20.0, 9.0), Weighted(30.0, 0.0);
    var z := Zip(values, weights);
    assert z == [p0, p1, p2, p3];
    HeavySecondSorted(z);
    var ps := SortBy(z, ValueOf);
    assert ps == [p0, p1, p2, p3];
    HeavySecondWeights(ps);
    SumOfSort(z, ValueOf, WeightOf);
    ZipWeights(values, weights);
    MedianAt(ps, 1);
    RoundedAgreesAt(ps, 1);
  }

  lemma {:induction false} TieBetweenTwoAndThreeSortedPrefix1(z: seq<Weighted>)
    requires z == [Weighted(1.0, 10.0), Weighted(2.0, 1.0), Weighted(3.0, 1.0), Weighted(4.0, 1.0), Weighted(5.0, 9.0)]
    ensures SortBy(z[..1], ValueOf) == [Weighted(1.0, 10.0)]
  {
    var p0, p1, p2, p3, p4 := Weighted(1.0, 10.0), Weighted(2.0, 1.0), Weighted(3.0, 1.0), Weighted(4.0, 1.0), Weighted(5.0, 9.0);
    assert z[..0] == [];
    SortByStep(z, ValueOf, 0);
    assert InsertBy(p0, [], ValueOf) == [p0];
    assert SortBy(z[..1], ValueOf) == [p0];
  }

  lemma {:induction false} TieBetweenTwoAndThreeSortedPrefix2(z: seq<Weighted>)
    requires z == [Weighted(1.0, 10.0), Weighted(2.0, 1.0), Weighted(3.0, 1.0), Weighted(4.0, 1.0), Weighted(5.0, 9.0)]
    ensures SortBy(z[..2], ValueOf) == [Weighted(1.0, 10.0), Weighted(2.0, 1.0)]
  {
    var p0, p1, p2, p3, p4 := Weighted(1.0, 10.0), Weighted(2.0, 1.0), Weighted(3.0, 1.0), Weighted(4.0, 1.0), Weighted(5.0, 9.0);
    TieBetweenTwoAndThreeSortedPrefix1(z);
    SortByStep(z, ValueOf, 1);
    assert InsertBy(p1, [], ValueOf) == [p1];
    assert [p0][1..] == [];
    assert InsertBy(p1, [p0], ValueOf) == [p0, p1];
    assert SortBy(z[..2], ValueOf) == [p0, p1];
  }

  lemma {:induction false} TieBetweenTwoAndThreeSortedPrefix3(z: seq<Weighted>)
    requires z == [Weighted(1.0, 10.0), Weighted(2.0, 1.0), Weighted(3.0, 1.0), Weighted(4.0, 1.0), Weighted(5.0, 9.0)]
    ensures SortBy(z[..3], ValueOf) == [Weighted(1.0, 10.0), Weighted(2.0, 1.0), Weighted(3.0, 1.0)]
  {
    var p0, p1, p2, p3, p4 := Weighted(1.0, 10.0), Weighted(2.0, 1.0), Weighted(3.0, 1.0), Weighted(4.0, 1.0), Weighted(5.0, 9.0);
    TieBetweenTwoAndThreeSortedPrefix2(z);
    SortByStep(z, ValueOf, 2);
    assert InsertBy(p2, [], ValueOf) == [p2];
    assert [p1][1..] == [];
    assert InsertBy(p2, [p1], ValueOf) == [p1, p2];
    assert [p0, p1][1..] == [p1];
    assert InsertBy(p2, [p0, p1], ValueOf) == [p0, p1, p2];
    assert SortBy(z[..3], ValueOf) == [p0, p1, p2];
  }

  lemma {:induction false} TieBetweenTwoAndThreeSortedPrefix4(z: seq<Weighted>)
    requires z == [Weighted(1.0, 10.0), Weighted(2.0, 1.0), Weighted(3.0, 1.0), Weighted(4.0, 1.0), Weighted(5.0, 9.0)]
    ensures SortBy(z[..4], ValueOf) == [Weighted(1.0, 10.0), Weighted(2.0, 1.0), Weighted(3.0, 1.0), Weighted(4.0, 1.0)]
  {
    var p0, p1, p2, p3, p4 := Weighted(1.0, 10.0), Weighted(2.0, 1.0), Weighted(3.0, 1.0), Weighted(4.0, 1.0), Weighted(5.0, 9.0);
    TieBetweenTwoAndThreeSortedPrefix3(z);
    SortByStep(z, ValueOf, 3);
    assert InsertBy(p3, [], ValueOf) == [p3];
    assert [p2][1..] == [];
    assert InsertBy(p3, [p2], ValueOf) == [p2, p3];
    assert [p1, p2][1..] == [p2];
    assert InsertBy(p3, [p1, p2], ValueOf) == [p1, p2, p3];
    assert [p0, p1, p2][1..] == [p1, p2];
    assert InsertBy(p3, [p0, p1, p2], ValueOf) == [p0, p1, p2, p3];
    assert SortBy(z[..4], ValueOf) == [p0, p1, p2, p3];
  }

  lemma {:induction false} TieBetweenTwoAndThreeSorted(z: seq<Weighted>)
    requires z == [Weighted(1.0, 10.0), Weighted(2.0, 1.0), Weighted(3.0, 1.0), Weighted(4.0, 1.0), Weighted(5.0, 9.0)]
    ensures SortBy(z, ValueOf) == [Weighted(1.0, 10.0), Weighted(2.0, 1.0), Weighted(3.0, 1.0), Weighted(4.0, 1.0), Weighted(5.0, 9.0)]
  {
    var p0, p1, p2, p3, p4 := Weighted(1.0, 10.0), Weighted(2.0, 1.0), Weighted(3.0, 1.0), Weighted(4.0, 1.0), Weighted(5.0, 9.0);
    TieBetweenTwoAndThreeSortedPrefix4(z);
    SortByStep(z, ValueOf, 4);
    assert InsertBy(p4, [], ValueOf) == [p4];
    assert [p3][1..] == [];
    assert InsertBy(p4, [p3], ValueOf) == [p3, p4];
    assert [p2, p3][1..] == [p3];
    assert InsertBy(p4, [p2, p3], ValueOf) == [p2, p3, p4];
    assert [p1, p2, p3][1..] == [p2, p3];
    assert InsertBy(p4, [p1, p2, p3], ValueOf) == [p1, p2, p3, p4];
    assert [p0, p1, p2, p3][1..] == [p1, p2, p3];
    assert InsertBy(p4, [p0, p1, p2, p3], ValueOf) == [p0, p1, p2, p3, p4];
    assert SortBy(z[..5], ValueOf) == [p0, p1, p2, p3, p4];
    assert z[..5] == z;
  }

  lemma {:induction false} TieBetweenTwoAndThreeWeights(ps: seq<Weighted>)
    requires ps == [Weighted(1.0, 10.0), Weighted(2.0, 1.0), Weighted(3.0, 1.0), Weighted(4.0, 1.0), Weighted(5.0, 9.0)]
    ensures SumOf(ps, WeightOf) == 22.0
    ensures WeightAfter(ps, 1) == 11.0
    ensures WeightAfter(ps, 0) == 12.0
  {
    var p0, p1, p2, p3, p4 := Weighted(1.0, 10.0), Weighted(2.0, 1.0), Weighted(3.0, 1.0), Weighted(4.0, 1.0), Weighted(5.0, 9.0);
    assert ps == [p0, p1, p2, p3, p4];
    assert ps[5..] == [];
    assert WeightAfter(ps, 4) == 0.0;
    WeightAfterStep(ps, 3);
    assert WeightAfter(ps, 3) == 9.0;
    WeightAfterStep(ps, 2);
    assert WeightAfter(ps, 2) == 10.0;
    WeightAfterStep(ps, 1);
    assert WeightAfter(ps, 1) == 11.0;
    WeightAfterStep(ps, 0);
    assert WeightAfter(ps, 0) == 12.0;
  }

  /** The case of index.test.js:39-43: the weighted median of these values and weights is 2.5, the mean of 2 and 3 on an exact tie. */
  lemma {:induction false} TieBetweenTwoAndThree(values: seq<real>, weights: seq<real>)
    requires values == [1.0, 2.0, 3.0, 4.0, 5.0]
    requires weights == [10.0, 1.0, 1.0, 1.0, 9.0]
    ensures WeightedInput(values, weights)
    ensures WeightedMedianOf(values, weights) == 5.0 / 2.0
    ensures WeightedMedianRoundedOf(values, weights) == 5.0 / 2.0
  {
    var p0, p1, p2, p3, p4 := Weighted(1.0, 10.0), Weighted(2.0, 1.0), Weighted(3.0, 1.0), Weighted(4.0, 1.0), Weighted(5.0, 9.0);
    var z := Zip(values, weights);
    assert z == [p0, p1, p2, p3, p4];
    TieBetweenTwoAndThreeSorted(z);
    var ps := SortBy(z, ValueOf);
    assert ps == [p0, p1, p2, p3, p4];
    TieBetweenTwoAndThreeWeights(ps);
    SumOfSort(z, ValueOf, WeightOf);
    ZipWeights(values, weights);
    MedianAt(ps, 1);
    RoundedAgreesAt(ps, 1);
  }

  lemma {:induction false} UnsortedSortedPrefix1(z: seq<Weighted>)
    requires z == [Weighted(30.0, 1.0), Weighted(40.0, 3.0), Weighted(50.0, 5.0), Weighted(60.0, 4.0), Weighted(35.0, 2.0)]
    ensures SortBy(z[..1], ValueOf) == [Weighted(30.0, 1.0)]
  {
    var p0, p1, p2, p3, p4 := Weighted(30.0, 1.0), Weighted(40.0, 3.0), Weighted(50.0, 5.0), Weighted(60.0, 4.0), Weighted(35.0, 2.0);
    assert z[..0] == [];
    SortByStep(z, ValueOf, 0);
    assert InsertBy(p0, [], ValueOf) == [p0];
    assert SortBy(z[..1], ValueOf) == [p0];
  }

  lemma {:induction false} UnsortedSortedPrefix2(z: seq<Weighted>)
    requires z == [Weighted(30.0, 1.0), Weighted(40.0, 3.0), Weighted(50.0, 5.0), Weighted(60.0, 4.0), Weighted(35.0, 2.0)]
    ensures SortBy(z[..2], ValueOf) == [Weighted(30.0, 1.0), Weighted(40.0, 3.0)]
  {
    var p0, p1, p2, p3, p4 := Weighted(30.0, 1.0), Weighted(40.0, 3.0), Weighted(50.0, 5.0), Weighted(60.0, 4.0), Weighted(35.0, 2.0);
    UnsortedSortedPrefix1(z);
    SortByStep(z, ValueOf, 1);
    assert InsertBy(p1, [], ValueOf) == [p1];
    assert [p0][1..] == [];
    assert InsertBy(p1, [p0], ValueOf) == [p0, p1];
    assert SortBy(z[..2], ValueOf) == [p0, p1];
  }

  lemma {:induction false} UnsortedSortedPrefix3(z: seq<Weighted>)
    requires z == [Weighted(30.0, 1.0), Weighted(40.0, 3.0), Weighted(50.0, 5.0), Weighted(60.0, 4.0), Weighted(35.0, 2.0)]
    ensures SortBy(z[..3], ValueOf) == [Weighted(30.0, 1.0), Weighted(40.0, 3.0), Weighted(50.0, 5.0)]
  {
    var p0, p1, p2, p3, p4 := Weighted(30.0, 1.0), Weighted(40.0, 3.0), Weighted(50.0, 5.0), Weighted(60.0, 4.0), Weighted(35.0, 2.0);
    UnsortedSortedPrefix2(z);
    SortByStep(z, ValueOf, 2);
    assert InsertBy(p2, [], ValueOf) == [p2];
    assert [p1][1..] == [];
    assert InsertBy(p2, [p1], ValueOf) == [p1, p2];
    assert [p0, p1][1..] == [p1];
    assert InsertBy(p2, [p0, p1], ValueOf) == [p0, p1, p2];
    assert SortBy(z[..3], ValueOf) == [p0, p1, p2];
  }

  lemma {:induction false} UnsortedSortedPrefix4(z: seq<Weighted>)
    requires z == [Weighted(30.0, 1.0), Weighted(40.0, 3.0), Weighted(50.0, 5.0), Weighted(60.0, 4.0), Weighted(35.0, 2.0)]
    ensures SortBy(z[..4], ValueOf) == [Weighted(30.0, 1.0), Weighted(40.0, 3.0), Weighted(50.0, 5.0), Weighted(60.0, 4.0)]
  {
    var p0, p1, p2, p3, p4 := Weighted(30.0, 1.0), Weighted(40.0, 3.0), Weighted(50.0, 5.0), Weighted(60.0, 4.0), Weighted(35.0, 2.0);
    UnsortedSortedPrefix3(z);
    SortByStep(z, ValueOf, 3);
    assert InsertBy(p3, [], ValueOf) == [p3];
    assert [p2][1..] == [];
    assert InsertBy(p3, [p2], ValueOf) == [p2, p3];
    assert [p1, p2][1..] == [p2];
    assert InsertBy(p3, [p1, p2], ValueOf) == [p1, p2, p3];
    assert [p0, p1, p2][1..] == [p1, p2];
    assert InsertBy(p3, [p0, p1, p2], ValueOf) == [p0, p1, p2, p3];
    assert SortBy(z[..4], ValueOf) == [p0, p1, p2, p3];
  }

  lemma {:induction false} UnsortedSorted(z: seq<Weighted>)
    requires z == [Weighted(30.0, 1.0), Weighted(40.0, 3.0), Weighted(50.0, 5.0), Weighted(60.0, 4.0), Weighted(35.0, 2.0)]
    ensures SortBy(z, ValueOf) == [Weighted(30.0, 1.0), Weighted(35.0, 2.0), Weighted(40.0, 3.0), Weighted(50.0, 5.0), Weighted(60.0, 4.0)]
  {
    var p0, p1, p2, p3, p4 := Weighted(30.0, 1.0), Weighted(40.0, 3.0), Weighted(50.0, 5.0), Weighted(60.0, 4.0), Weighted(35.0, 2.0);
    UnsortedSortedPrefix4(z);
    SortByStep(z, ValueOf, 4);
    assert InsertBy(p4, [p1, p2, p3], ValueOf) == [p4, p1, p2, p3];
    assert [p0, p1, p2, p3][1..] == [p1, p2, p3];
    assert InsertBy(p4, [p0, p1, p2, p3], ValueOf) == [p0, p4, p1, p2, p3];
    assert SortBy(z[..5], ValueOf) == [p0, p4, p1, p2, p3];
    assert z[..5] == z;
  }

  lemma {:induction false} UnsortedWeights(ps: seq<Weighted>)
    requires ps == [Weighted(30.0, 1.0), Weighted(35.0, 2.0), Weighted(40.0, 3.0), Weighted(50.0, 5.0), Weighted(60.0, 4.0)]
    ensures SumOf(ps, WeightOf) == 15.0
    ensures WeightAfter(ps, 3) == 4.0
    ensures WeightAfter(ps, 2) == 9.0
  {
    var p0, p1, p2, p3, p4 := Weighted(30.0, 1.0), Weighted(40.0, 3.0), Weighted(50.0, 5.0), Weighted(60.0, 4.0), Weighted(35.0, 2.0);
    assert ps == [p0, p4, p1, p2, p3];
    assert ps[5..] == [];
    assert WeightAfter(ps, 4) == 0.0;
    WeightAfterStep(ps, 3);
    assert WeightAfter(ps, 3) == 4.0;
    WeightAfterStep(ps, 2);
    assert WeightAfter(ps, 2) == 9.0;
    WeightAfterStep(ps, 1);
    assert WeightAfter(ps, 1) == 12.0;
    WeightAfterStep(ps, 0);
    assert WeightAfter(ps, 0) == 14.0;
  }

  /** The case of index.test.js:44-48: the weighted median of these values and weights is 50. */
  lemma {:induction false} Unsorted(values: seq<real>, weights: seq<real>)
    requires values == [30.0, 40.0, 50.0, 60.0, 35.0]
    requires weights == [1.0, 3.0, 5.0, 4.0, 2.0]
    ensures WeightedInput(values, weights)
    ensures WeightedMedianOf(values, weights) == 50.0
    ensures WeightedMedianRoundedOf(values, weights) == 50.0
  {
    var p0, p1, p2, p3, p4 := Weighted(30.0, 1.0), Weighted(40.0, 3.0), Weighted(50.0, 5.0), Weighted(60.0, 4.0), Weighted(35.0, 2.0);
    var z := Zip(values, weights);
    assert z == [p0, p1, p2, p3, p4];
    UnsortedSorted(z);
    var ps := SortBy(z, ValueOf);
    assert ps == [p0, p4, p1, p2, p3];
    UnsortedWeights(ps);
    SumOfSort(z, ValueOf, WeightOf);
    ZipWeights(values, weights);
    MedianAt(ps, 3);
    RoundedAgreesAt(ps, 3);
  }

  lemma {:induction false} ZeroWeightsSortedPrefix1(z: seq<Weighted>)
    requires z == [Weighted(2.0, 2.0), Weighted(0.6, 2.0), Weighted(1.3, 0.0), Weighted(0.3, 1.0), Weighted(0.3, 2.0), Weighted(1.7, 2.0), Weighted(0.7, 1.0), Weighted(1.7, 6.0), Weighted(0.4, 0.0)]
    ensures SortBy(z[..1], ValueOf) == [Weighted(2.0, 2.0)]
  {
    var p0, p1, p2, p3, p4, p5, p6, p7, p8 := Weighted(2.0, 2.0), Weighted(0.6, 2.0), Weighted(1.3, 0.0), Weighted(0.3, 1.0), Weighted(0.3, 2.0), Weighted(1.7, 2.0), Weighted(0.7, 1.0), Weighted(1.7, 6.0), Weighted(0.4, 0.0);
    assert z[..0] == [];
    SortByStep(z, ValueOf, 0);
    assert InsertBy(p0, [], ValueOf) == [p0];
    assert SortBy(z[..1], ValueOf) == [p0];
  }

  lemma {:induction false} ZeroWeightsSortedPrefix2(z: seq<Weighted>)
    requires z == [Weighted(2.0, 2.0), Weighted(0.6, 2.0), Weighted(1.3, 0.0), Weighted(0.3, 1.0), Weighted(0.3, 2.0), Weighted(1.7, 2.0), Weighted(0.7, 1.0), Weighted(1.7, 6.0), Weighted(0.4, 0.0)]
    ensures SortBy(z[..2], ValueOf) == [Weighted(0.6, 2.0), Weighted(2.0, 2.0)]
  {
    var p0, p1, p2, p3, p4, p5, p6, p7, p8 := Weighted(2.0, 2.0), Weighted(0.6, 2.0), Weighted(1.3, 0.0), Weighted(0.3, 1.0), Weighted(0.3, 2.0), Weighted(1.7, 2.0), Weighted(0.7, 1.0), Weighted(1.7, 6.0), Weighted(0.4, 0.0);
    ZeroWeightsSortedPrefix1(z);
    SortByStep(z, ValueOf, 1);
    assert InsertBy(p1, [p0], ValueOf) == [p1, p0];
    assert SortBy(z[..2], ValueOf) == [p1, p0];
  }

  lemma {:induction false} ZeroWeightsSortedPrefix3(z: seq<Weighted>)
    requires z == [Weighted(2.0, 2.0), Weighted(0.6, 2.0), Weighted(1.3, 0.0), Weighted(0.3, 1.0), Weighted(0.3, 2.0), Weighted(1.7, 2.0), Weighted(0.7, 1.0), Weighted(1.7, 6.0), Weighted(0.4, 0.0)]
    ensures SortBy(z[..3], ValueOf) == [Weighted(0.6, 2.0), Weighted(1.3, 0.0), Weighted(2.0, 2.0)]
  {
    var p0, p1, p2, p3, p4, p5, p6, p7, p8 := Weighted(2.0, 2.0), Weighted(0.6, 2.0), Weighted(1.3, 0.0), Weighted(0.3, 1.0), Weighted(0.3, 2.0), Weighted(1.7, 2.0), Weighted(0.7, 1.0), Weighted(1.7, 6.0), Weighted(0.4, 0.0);
    ZeroWeightsSortedPrefix2(z);
    SortByStep(z, ValueOf, 2);
    assert InsertBy(p2, [p0], ValueOf) == [p2, p0];
    assert [p1, p0][1..] == [p0];
    assert InsertBy(p2, [p1, p0], ValueOf) == [p1, p2, p0];
    assert SortBy(z[..3], ValueOf) == [p1, p2, p0];
  }

  lemma {:induction false} ZeroWeightsSortedPrefix4(z: seq<Weighted>)
    requires z == [Weighted(2.0, 2.0), Weighted(0.6, 2.0), Weighted(1.3, 0.0), Weighted(0.3, 1.0), Weighted(0.3, 2.0), Weighted(1.7, 2.0), Weighted(0.7, 1.0), Weighted(1.7, 6.0), Weighted(0.4, 0.0)]
    ensures SortBy(z[..4], ValueOf) == [Weighted(0.3, 1.0), Weighted(0.6, 2.0), Weighted(1.3, 0.0), Weighted(2.0, 2.0)]
  {
    var p0, p1, p2, p3, p4, p5, p6, p7, p8 := Weighted(2.0, 2.0), Weighted(0.6, 2.0), Weighted(1.3, 0.0), Weighted(0.3, 1.0), Weighted(0.3, 2.0), Weighted(1.7, 2.0), Weighted(0.7, 1.0), Weighted(1.7, 6.0), Weighted(0.4, 0.0);
    ZeroWeightsSortedPrefix3(z);
    SortByStep(z, ValueOf, 3);
    assert InsertBy(p3, [p1, p2, p0], ValueOf) == [p3, p1, p2, p0];
    assert SortBy(z[..4], ValueOf) == [p3, p1, p2, p0];
  }

  lemma {:induction false} ZeroWeightsSortedPrefix5(z: seq<Weighted>)
    requires z == [Weighted(2.0, 2.0), Weighted(0.6, 2.0), Weighted(1.3, 0.0), Weighted(0.3, 1.0), Weighted(0.3, 2.0), Weighted(1.7, 2.0), Weighted(0.7, 1.0), Weighted(1.7, 6.0), Weighted(0.4, 0.0)]
    ensures SortBy(z[..5], ValueOf) == [Weighted(0.3, 1.0), Weighted(0.3, 2.0), Weighted(0.6, 2.0), Weighted(1.3, 0.0), Weighted(2.0, 2.0)]
  {
    var p0, p1, p2, p3, p4, p5, p6, p7, p8 := Weighted(2.0, 2.0), Weighted(0.6, 2.0), Weighted(1.3, 0.0), Weighted(0.3, 1.0), Weighted(0.3, 2.0), Weighted(1.7, 2.0), Weighted(0.7, 1.0), Weighted(1.7, 6.0), Weighted(0.4, 0.0);
    ZeroWeightsSortedPrefix4(z);
    SortByStep(z, ValueOf, 4);
    assert InsertBy(p4, [p1, p2, p0], ValueOf) == [p4, p1, p2, p0];
    assert [p3, p1, p2, p0][1..] == [p1, p2, p0];
    assert InsertBy(p4, [p3, p1, p2, p0], ValueOf) == [p3, p4, p1, p2, p0];
    assert SortBy(z[..5], ValueOf) == [p3, p4, p1, p2, p0];
  }

  lemma {:induction false} ZeroWeightsSortedPrefix6(z: seq<Weighted>)
    requires z == [Weighted(2.0, 2.0), Weighted(0.6, 2.0), Weighted(1.3, 0.0), Weighted(0.3, 1.0), Weighted(0.3, 2.0), Weighted(1.7, 2.0), Weighted(0.7, 1.0), Weighted(1.7, 6.0), Weighted(0.4, 0.0)]
    ensures SortBy(z[..6], ValueOf) == [Weighted(0.3, 1.0), Weighted(0.3, 2.0), Weighted(0.6, 2.0), Weighted(1.3, 0.0), Weighted(1.7, 2.0), Weighted(2.0, 2.0)]
  {
    var p0, p1, p2, p3, p4, p5, p6, p7, p8 := Weighted(2.0, 2.0), Weighted(0.6, 2.0), Weighted(1.3, 0.0), Weighted(0.3, 1.0), Weighted(0.3, 2.0), Weighted(1.7, 2.0), Weighted(0.7, 1.0), Weighted(1.7, 6.0), Weighted(0.4, 0.0);
    ZeroWeightsSortedPrefix5(z);
    SortByStep(z, ValueOf, 5);
    assert InsertBy(p5, [p0], ValueOf) == [p5, p0];
    assert [p2, p0][1..] == [p0];
    assert InsertBy(p5, [p2, p0], ValueOf) == [p2, p5, p0];
    assert [p1, p2, p0][1..] == [p2, p0];
    assert InsertBy(p5, [p1, p2, p0], ValueOf) == [p1, p2, p5, p0];
    assert [p4, p1, p2, p0][1..] == [p1, p2, p0];
    assert InsertBy(p5, [p4, p1, p2, p0], ValueOf) == [p4, p1, p2, p5, p0];
    assert [p3, p4, p1, p2, p0][1..] == [p4, p1, p2, p0];
    assert InsertBy(p5, [p3, p4, p1, p2, p0], ValueOf) == [p3, p4, p1, p2, p5, p0];
    assert SortBy(z[..6], ValueOf) == [p3, p4, p1, p2, p5, p0];
  }

  lemma {:induction false} ZeroWeightsSortedPrefix7(z: seq<Weighted>)
    requires z == [Weighted(2.0, 2.0), Weighted(0.6, 2.0), Weighted(1.3, 0.0), Weighted(0.3, 1.0), Weighted(0.3, 2.0), Weighted(1.7, 2.0), Weighted(0.7, 1.0), Weighted(1.7, 6.0), Weighted(0.4, 0.0)]
    ensures SortBy(z[..7], ValueOf) == [Weighted(0.3, 1.0), Weighted(0.3, 2.0), Weighted(0.6, 2.0), Weighted(0.7, 1.0), Weighted(1.3, 0.0), Weighted(1.7, 2.0), Weighted(2.0, 2.0)]
  {
    var p0, p1, p2, p3, p4, p5, p6, p7, p8 := Weighted(2.0, 2.0), Weighted(0.6, 2.0), Weighted(1.3, 0.0), Weighted(0.3, 1.0), Weighted(0.3, 2.0), Weighted(1.7, 2.0), Weighted(0.7, 1.0), Weighted(1.7, 6.0), Weighted(0.4, 0.0);
    ZeroWeightsSortedPrefix6(z);
    SortByStep(z, ValueOf, 6);
    assert InsertBy(p6, [p2, p5, p0], ValueOf) == [p6, p2, p5, p0];
    assert [p1, p2, p5, p0][1..] == [p2, p5, p0];
    assert InsertBy(p6, [p1, p2, p5, p0], ValueOf) == [p1, p6, p2, p5, p0];
    assert [p4, p1, p2, p5, p0][1..] == [p1, p2, p5, p0];
    assert InsertBy(p6, [p4, p1, p2, p5, p0], ValueOf) == [p4, p1, p6, p2, p5, p0];
    assert [p3, p4, p1, p2, p5, p0][1..] == [p4, p1, p2, p5, p0];
    assert InsertBy(p6, [p3, p4, p1, p2, p5, p0], ValueOf) == [p3, p4, p1, p6, p2, p5, p0];
    assert SortBy(z[..7], ValueOf) == [p3, p4, p1, p6, p2, p5, p0];
  }

  lemma {:induction false} ZeroWeightsSortedPrefix8(z: seq<Weighted>)
    requires z == [Weighted(2.0, 2.0), Weighted(0.6, 2.0), Weighted(1.3, 0.0), Weighted(0.3, 1.0), Weighted(0.3, 2.0), Weighted(1.7, 2.0), Weighted(0.7, 1.0), Weighted(1.7, 6.0), Weighted(0.4, 0.0)]
    ensures SortBy(z[..8], ValueOf) == [Weighted(0.3, 1.0), Weighted(0.3, 2.0), Weighted(0.6, 2.0), Weighted(0.7, 1.0), Weighted(1.3, 0.0), Weighted(1.7, 2.0), Weighted(1.7, 6.0), Weighted(2.0, 2.0)]
  {
    var p0, p1, p2, p3, p4, p5, p6, p7, p8 := Weighted(2.0, 2.0), Weighted(0.6, 2.0), Weighted(1.3, 0.0), Weighted(0.3, 1.0), Weighted(0.3, 2.0), Weighted(1.7, 2.0), Weighted(0.7, 1.0), Weighted(1.7, 6.0), Weighted(0.4, 0.0);
    ZeroWeightsSortedPrefix7(z);
    SortByStep(z, ValueOf, 7);
    assert InsertBy(p7, [p0], ValueOf) == [p7, p0];
    assert [p5, p0][1..] == [p0];
    assert InsertBy(p7, [p5, p0], ValueOf) == [p5, p7, p0];
    assert [p2, p5, p0][1..] == [p5, p0];
    assert InsertBy(p7, [p2, p5, p0], ValueOf) == [p2, p5, p7, p0];
    assert [p6, p2, p5, p0][1..] == [p2, p5, p0];
    assert InsertBy(p7, [p6, p2, p5, p0], ValueOf) == [p6, p2, p5, p7, p0];
    assert [p1, p6, p2, p5, p0][1..] == [p6, p2, p5, p0];
    assert InsertBy(p7, [p1, p6, p2, p5, p0], ValueOf) == [p1, p6, p2, p5, p7, p0];
    assert [p4, p1, p6, p2, p5, p0][1..] == [p1, p6, p2, p5, p0];
    assert InsertBy(p7, [p4, p1, p6, p2, p5, p0], ValueOf) == [p4, p1, p6, p2, p5, p7, p0];
    assert [p3, p4, p1, p6, p2, p5, p0][1..] == [p4, p1, p6, p2, p5, p0];
    assert InsertBy(p7, [p3, p4, p1, p6, p2, p5, p0], ValueOf) == [p3, p4, p1, p6, p2, p5, p7, p0];
    assert SortBy(z[..8], ValueOf) == [p3, p4, p1, p6, p2, p5, p7, p0];
  }

  lemma {:induction false} ZeroWeightsSorted(z: seq<Weighted>)
    requires z == [Weighted(2.0, 2.0), Weighted(0.6, 2.0), Weighted(1.3, 0.0), Weighted(0.3, 1.0), Weighted(0.3, 2.0), Weighted(1.7, 2.0), Weighted(0.7, 1.0), Weighted(1.7, 6.0), Weighted(0.4, 0.0)]
    ensures SortBy(z, ValueOf) == [Weighted(0.3, 1.0), Weighted(0.3, 2.0), Weighted(0.4, 0.0), Weighted(0.6, 2.0), Weighted(0.7, 1.0), Weighted(1.3, 0.0), Weighted(1.7, 2.0), Weighted(1.7, 6.0), Weighted(2.0, 2.0)]
  {
    var p0, p1, p2, p3, p4, p5, p6, p7, p8 := Weighted(2.0, 2.0), Weighted(0.6, 2.0), Weighted(1.3, 0.0), Weighted(0.3, 1.0), Weighted(0.3, 2.0), Weighted(1.7, 2.0), Weighted(0.7, 1.0), Weighted(1.7, 6.0), Weighted(0.4, 0.0);
    ZeroWeightsSortedPrefix8(z);
    SortByStep(z, ValueOf, 8);
    assert InsertBy(p8, [p1, p6, p2, p5, p7, p0], ValueOf) == [p8, p1, p6, p2, p5, p7, p0];
    assert [p4, p1, p6, p2, p5, p7, p0][1..] == [p1, p6, p2, p5, p7, p0];
    assert InsertBy(p8, [p4, p1, p6, p2, p5, p7, p0], ValueOf) == [p4, p8, p1, p6, p2, p5, p7, p0];
    assert [p3, p4, p1, p6, p2, p5, p7, p0][1..] == [p4, p1, p6, p2, p5, p7, p0];
    assert InsertBy(p8, [p3, p4, p1, p6, p2, p5, p7, p0], ValueOf) == [p3, p4, p8, p1, p6, p2, p5, p7, p0];
    assert SortBy(z[..9], ValueOf) == [p3, p4, p8, p1, p6, p2, p5, p7, p0];
    assert z[..9] == z;
  }

  lemma {:induction false} ZeroWeightsWeights(ps: seq<Weighted>)
    requires ps == [Weighted(0.3, 1.0), Weighted(0.3, 2.0), Weighted(0.4, 0.0), Weighted(0.6, 2.0), Weighted(0.7, 1.0), Weighted(1.3, 0.0), Weighted(1.7, 2.0), Weighted(1.7, 6.0), Weighted(2.0, 2.0)]
    ensures SumOf(ps, WeightOf) == 16.0
    ensures WeightAfter(ps, 6) == 8.0
    ensures WeightAfter(ps, 5) == 10.0
  {
    var p0, p1, p2, p3, p4, p5, p6, p7, p8 := Weighted(2.0, 2.0), Weighted(0.6, 2.0), Weighted(1.3, 0.0), Weighted(0.3, 1.0), Weighted(0.3, 2.0), Weighted(1.7, 2.0), Weighted(0.7, 1.0), Weighted(1.7, 6.0), Weighted(0.4, 0.0);
    assert ps == [p3, p4, p8, p1, p6, p2, p5, p7, p0];
    assert ps[9..] == [];
    assert WeightAfter(ps, 8) == 0.0;
    WeightAfterStep(ps, 7);
    assert WeightAfter(ps, 7) == 2.0;
    WeightAfterStep(ps, 6);
    assert WeightAfter(ps, 6) == 8.0;
    WeightAfterStep(ps, 5);
    assert WeightAfter(ps, 5) == 10.0;
    WeightAfterStep(ps, 4);
    assert WeightAfter(ps, 4) == 10.0;
    WeightAfterStep(ps, 3);
    assert WeightAfter(ps, 3) == 11.0;
    WeightAfterStep(ps, 2);
    assert WeightAfter(ps, 2) == 13.0;
    WeightAfterStep(ps, 1);
    assert WeightAfter(ps, 1) == 13.0;
    WeightAfterStep(ps, 0);
    assert WeightAfter(ps, 0) == 15.0;
  }

  /** The case of index.test.js:49-53: the weighted median of these values and weights is 1.7. */
  lemma {:induction false} ZeroWeights(values: seq<real>, weights: seq<real>)
    requires values == [2.0, 0.6, 1.3, 0.3, 0.3, 1.7, 0.7, 1.7, 0.4]
    requires weights == [2.0, 2.0, 0.0, 1.0, 2.0, 2.0, 1.0, 6.0, 0.0]
    ensures WeightedInput(values, weights)
    ensures WeightedMedianOf(values, weights) == 1.7
    ensures WeightedMedianRoundedOf(values, weights) == 1.7
  {
    var p0, p1, p2, p3, p4, p5, p6, p7, p8 := Weighted(2.0, 2.0), Weighted(0.6, 2.0), Weighted(1.3, 0.0), Weighted(0.3, 1.0), Weighted(0.3, 2.0), Weighted(1.7, 2.0), Weighted(0.7, 1.0), Weighted(1.7, 6.0), Weighted(0.4, 0.0);
    var z := Zip(values, weights);
    assert z == [p0, p1, p2, p3, p4, p5, p6, p7, p8];
    ZeroWeightsSorted(z);
    var ps := SortBy(z, ValueOf);
    assert ps == [p3, p4, p8, p1, p6, p2, p5, p7, p0];
    ZeroWeightsWeights(ps);
    SumOfSort(z, ValueOf, WeightOf);
    ZipWeights(values, weights);
    MedianAt(ps, 6);
    RoundedAgreesAt(ps, 6);
  }
}
