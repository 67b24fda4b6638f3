/** The two medians the estimator computes: the exact median of a full buffer
    (index.js:68-78) and the weighted median that combines the levels
    (index.js:86-114). Numbers are exact reals. */
module Medians {
  import opened Sorting

  /** A number paired with the weight it carries in a weighted median. */
  datatype Weighted = Weighted(value: real, weight: real)

  function ValueOf(p: Weighted): real { p.value }

  function WeightOf(p: Weighted): real { p.weight }

  /** The sort key of plain numbers. */
  function Id(x: real): real { x }

  /** The weight a pair contributes to "the weight strictly below r". */
  function Below(r: real): Weighted -> real {
    (p: Weighted) => if p.value < r then p.weight else 0.0
  }

  /** The weight a pair contributes to "the weight strictly above r". */
  function Above(r: real): Weighted -> real {
    (p: Weighted) => if p.value > r then p.weight else 0.0
  }

  /** Counts the numbers strictly below r. */
  function Less(r: real): real -> real {
    (x: real) => if x < r then 1.0 else 0.0
  }

  /** Counts the numbers strictly above r. */
  function Greater(r: real): real -> real {
    (x: real) => if x > r then 1.0 else 0.0
  }

  /** Counts every number once. */
  function Unit(x: real): real { 1.0 }

  ghost predicate NonNegative(ws: seq<real>) {
    forall j :: 0 <= j < |ws| ==> ws[j] >= 0.0
  }

  /** Pairs values[j] with weights[j], as values.map((value, i) => [value, weights[i]]) does. */
  function Zip(values: seq<real>, weights: seq<real>): (ps: seq<Weighted>)
    requires |values| == |weights|
    ensures |ps| == |values|
    ensures forall j :: 0 <= j < |ps| ==> ps[j] == Weighted(values[j], weights[j])
  {
    seq(|values|, j requires 0 <= j < |values| => Weighted(values[j], weights[j]))
  }

  lemma {:induction false} ZipWeights(values: seq<real>, weights: seq<real>)
    requires |values| == |weights|
    ensures SumOf(Zip(values, weights), WeightOf) == SumOf(weights, Id)
  {
    if values != [] {
      assert Zip(values, weights)[1..] == Zip(values[1..], weights[1..]);
      ZipWeights(values[1..], weights[1..]);
    }
  }

  // ---------------------------------------------------------------------------
  // Exact median of a full buffer

  ghost predicate Ascending(s: seq<real>) {
    forall a, b :: 0 <= a < b < |s| ==> s[a] <= s[b]
  }

  /** The middle element of s, or the mean of its two middle elements when |s| is even. */
  function Middle(s: seq<real>): real
    requires |s| > 0
  {
    var middle := |s| / 2;
    if |s| % 2 == 0 then (s[middle - 1] + s[middle]) / 2.0 else s[middle]
  }

  /** The conventional median: the middle of the sorted numbers (index.js:70-77). */
  function ExactMedian(xs: seq<real>): real
    requires |xs| > 0
  {
    Middle(SortBy(xs, Id))
  }

  lemma {:induction false} SortedAscending(xs: seq<real>)
    ensures Ascending(SortBy(xs, Id))
  {
    var s := SortBy(xs, Id);
    SortBySorted(xs, Id);
    forall a, b | 0 <= a < b < |s| ensures s[a] <= s[b] {
      assert Id(s[a]) <= Id(s[b]);
    }
  }

  /** Every element of the sorted numbers is one of the numbers. */
  lemma {:induction false} SortedElement(xs: seq<real>, j: nat)
    requires j < |xs|
    ensures exists a :: 0 <= a < |xs| && xs[a] == SortBy(xs, Id)[j]
  {
    var sorted := SortBy(xs, Id);
    SortByPermutes(xs, Id);
    assert sorted[j] in multiset(sorted);
    assert sorted[j] in xs;
  }

  lemma {:induction false} CountLessAtMost(s: seq<real>, m: real, lo: nat)
    requires lo <= |s|
    requires forall j :: lo <= j < |s| ==> s[j] >= m
    ensures SumOf(s, Less(m)) <= lo as real
  {
    SumOfPrefixBound(s, Less(m), Unit, lo);
    SumOfOnes(s[..lo], Unit);
  }

  lemma {:induction false} CountGreaterAtMost(s: seq<real>, m: real, hi: nat)
    requires hi <= |s|
    requires forall j :: 0 <= j < hi ==> s[j] <= m
    ensures SumOf(s, Greater(m)) <= (|s| - hi) as real
  {
    SumOfSuffixBound(s, Greater(m), Unit, hi);
    SumOfOnes(s[hi..], Unit);
  }

  /** In ascending numbers, at most half lie strictly below the middle and at most
      half strictly above it. */
  lemma {:induction false} MiddleIsMedian(s: seq<real>)
    requires |s| > 0 && Ascending(s)
    ensures 2.0 * SumOf(s, Less(Middle(s))) <= |s| as real
    ensures 2.0 * SumOf(s, Greater(Middle(s))) <= |s| as real
    ensures s[if |s| % 2 == 0 then |s| / 2 - 1 else |s| / 2] <= Middle(s) <= s[|s| / 2]
  {
    var m, n, t := Middle(s), |s|, |s| / 2;
    // Only positions before lo can hold a number below m,
    // and only positions from hi on a number above it.
    var lo, hi := t, if n % 2 == 0 then t else t + 1;
    forall j | lo <= j < n ensures s[j] >= m { assert s[t] <= s[j]; }
    forall j | 0 <= j < hi ensures s[j] <= m { assert s[j] <= s[hi - 1]; }
    CountLessAtMost(s, m, lo);
    CountGreaterAtMost(s, m, hi);
  }

  /** At most half of the numbers lie strictly below the exact median, at most
      half strictly above, and it lies between the least and the greatest. */
  lemma {:induction false} ExactMedianIsMedian(xs: seq<real>)
    requires |xs| > 0
    ensures 2.0 * SumOf(xs, Less(ExactMedian(xs))) <= |xs| as real
    ensures 2.0 * SumOf(xs, Greater(ExactMedian(xs))) <= |xs| as real
    ensures exists a, b :: 0 <= a < |xs| && 0 <= b < |xs| && xs[a] <= ExactMedian(xs) <= xs[b]
  {
    var s := SortBy(xs, Id);
    var m := Middle(s);
    SortedAscending(xs);
    MiddleIsMedian(s);
    SumOfSort(xs, Id, Less(m));
    SumOfSort(xs, Id, Greater(m));
    SortedElement(xs, if |s| % 2 == 0 then |s| / 2 - 1 else |s| / 2);
    SortedElement(xs, |s| / 2);
  }

  // ---------------------------------------------------------------------------
  // Weighted median

  /** The weight that lies strictly after position k of ps. */
  function WeightAfter(ps: seq<Weighted>, k: nat): real
    requires k < |ps|
  {
    SumOf(ps[k + 1..], WeightOf)
  }

  /** The first position, from `from` on, after which at most `half` of the weight lies. */
  function LowerMedianIndex(ps: seq<Weighted>, half: real, from: nat): (k: nat)
    requires from < |ps| && half >= 0.0
    ensures from <= k < |ps|
    ensures WeightAfter(ps, k) <= half
    ensures forall j :: from <= j < k ==> WeightAfter(ps, j) > half
    decreases |ps| - from
  {
    if WeightAfter(ps, from) <= half then from
    else
      assert from + 1 < |ps|;
      LowerMedianIndex(ps, half, from + 1)
  }

  /** LowerMedianIndex is the only position with its two properties. */
  lemma {:induction false} LowerMedianIndexUnique(ps: seq<Weighted>, half: real, k: nat)
    requires k < |ps| && half >= 0.0
    requires WeightAfter(ps, k) <= half
    requires forall j :: 0 <= j < k ==> WeightAfter(ps, j) > half
    ensures LowerMedianIndex(ps, half, 0) == k
  {
  }

  /** What the source's weighted median requires of its arguments: one weight per
      value, at least one value, no negative weight and a positive total. */
  ghost predicate WeightedInput(values: seq<real>, weights: seq<real>) {
    |values| == |weights| > 0 && NonNegative(weights) && SumOf(weights, Id) > 0.0
  }

  /** The pairs sorted by value, stably. */
  function SortedPairs(values: seq<real>, weights: seq<real>): seq<Weighted>
    requires |values| == |weights|
  {
    SortBy(Zip(values, weights), ValueOf)
  }

  lemma {:induction false} SortedPairsFacts(values: seq<real>, weights: seq<real>)
    requires WeightedInput(values, weights)
    ensures |SortedPairs(values, weights)| == |values|
    ensures SumOf(SortedPairs(values, weights), WeightOf) == SumOf(weights, Id)
    ensures forall j :: 0 <= j < |values| ==> SortedPairs(values, weights)[j].weight >= 0.0
  {
    var ps := Zip(values, weights);
    var sorted := SortedPairs(values, weights);
    SumOfSort(ps, ValueOf, WeightOf);
    ZipWeights(values, weights);
    SortByPermutes(ps, ValueOf);
    forall j | 0 <= j < |values| ensures sorted[j].weight >= 0.0 {
      assert sorted[j] in multiset(ps);
      assert sorted[j] in ps;
    }
  }

  /** The weighted median of pairs already sorted by value: the first position
      after which at most half of the total weight lies; on an exact tie (exactly
      half lies after it) the mean of that value and the next one. */
  function MedianOfSorted(ps: seq<Weighted>): real
    requires |ps| > 0 && SumOf(ps, WeightOf) > 0.0
  {
    var total := SumOf(ps, WeightOf);
    var k := LowerMedianIndex(ps, total / 2.0, 0);
    if WeightAfter(ps, k) == total / 2.0 then
      assert k + 1 < |ps|;
      (ps[k].value + ps[k + 1].value) / 2.0
    else ps[k].value
  }

  /** The weighted median of index.js:86-114: the pairs sorted stably by value,
      then MedianOfSorted. */
  function WeightedMedianOf(values: seq<real>, weights: seq<real>): real
    requires WeightedInput(values, weights)
  {
    SortedPairsFacts(values, weights);
    MedianOfSorted(SortedPairs(values, weights))
  }

  /** The running sum of the source: starts at the total minus the first weight
      and subtracts one weight per step while more than half remains. */
  method WeightedMedian(values: seq<real>, weights: seq<real>) returns (median: real)
    requires WeightedInput(values, weights)
    ensures median == WeightedMedianOf(values, weights)
  {
    var sorted := SortedPairs(values, weights);
    SortedPairsFacts(values, weights);
    var total := SumOf(sorted, WeightOf);
    var k := 0;
    var sum := total - sorted[0].weight;
    assert WeightAfter(sorted, 0) == sum;
    while sum > total / 2.0
      invariant 0 <= k < |sorted|
      invariant sum == WeightAfter(sorted, k)
      invariant forall j :: 0 <= j < k ==> WeightAfter(sorted, j) > total / 2.0
      decreases |sorted| - k
    {
      assert k + 1 < |sorted|;
      WeightAfterStep(sorted, k);
      k := k + 1;
      sum := sum - sorted[k].weight;
    }
    LowerMedianIndexUnique(sorted, total / 2.0, k);
    if sum == total / 2.0 {
      assert k + 1 < |sorted|;
      median := (sorted[k].value + sorted[k + 1].value) / 2.0;
    } else {
      median := sorted[k].value;
    }
  }

  lemma {:induction false} WeightBelowAtMost(ps: seq<Weighted>, r: real, lo: nat)
    requires lo <= |ps| && forall j :: 0 <= j < |ps| ==> ps[j].weight >= 0.0
    requires forall j :: lo <= j < |ps| ==> ps[j].value >= r
    ensures SumOf(ps, Below(r)) <= SumOf(ps[..lo], WeightOf)
  {
    SumOfPrefixBound(ps, Below(r), WeightOf, lo);
  }

  lemma {:induction false} WeightAboveAtMost(ps: seq<Weighted>, r: real, hi: nat)
    requires hi <= |ps| && forall j :: 0 <= j < |ps| ==> ps[j].weight >= 0.0
    requires forall j :: 0 <= j < hi ==> ps[j].value <= r
    ensures SumOf(ps, Above(r)) <= SumOf(ps[hi..], WeightOf)
  {
    SumOfSuffixBound(ps, Above(r), WeightOf, hi);
  }

  /** The weight before position m plus the weight from m on is the total. */
  lemma {:induction false} WeightSplit(ps: seq<Weighted>, m: nat)
    requires m <= |ps|
    ensures SumOf(ps[..m], WeightOf) + SumOf(ps[m..], WeightOf) == SumOf(ps, WeightOf)
  {
    assert ps == ps[..m] + ps[m..];
    SumOfConcat(ps[..m], ps[m..], WeightOf);
  }

  /** If nothing from lo on is below r and nothing before hi above it, and at
      most half of the weight lies before lo and at most half from hi on, then at
      most half lies strictly below r and at most half strictly above. */
  lemma {:induction false} HalvesAround(ps: seq<Weighted>, r: real, lo: nat, hi: nat)
    requires lo <= |ps| && hi <= |ps| && forall j :: 0 <= j < |ps| ==> ps[j].weight >= 0.0
    requires forall j :: lo <= j < |ps| ==> ps[j].value >= r
    requires forall j :: 0 <= j < hi ==> ps[j].value <= r
    requires 2.0 * SumOf(ps[..lo], WeightOf) <= SumOf(ps, WeightOf)
    requires 2.0 * SumOf(ps[hi..], WeightOf) <= SumOf(ps, WeightOf)
    ensures 2.0 * SumOf(ps, Below(r)) <= SumOf(ps, WeightOf)
    ensures 2.0 * SumOf(ps, Above(r)) <= SumOf(ps, WeightOf)
  {
    WeightBelowAtMost(ps, r, lo);
    WeightAboveAtMost(ps, r, hi);
  }

  /** The tie case of MedianOfSorted: exactly half of the weight lies after k. */
  lemma {:induction false} TieHalves(ps: seq<Weighted>, k: nat, r: real)
    requires k + 1 < |ps| && SortedBy(ps, ValueOf)
    requires forall j :: 0 <= j < |ps| ==> ps[j].weight >= 0.0
    requires WeightAfter(ps, k) == SumOf(ps, WeightOf) / 2.0
    requires r == (ps[k].value + ps[k + 1].value) / 2.0
    ensures ps[k].value <= r <= ps[k + 1].value
    ensures 2.0 * SumOf(ps, Below(r)) <= SumOf(ps, WeightOf)
    ensures 2.0 * SumOf(ps, Above(r)) <= SumOf(ps, WeightOf)
  {
    var v, w := ps[k].value, ps[k + 1].value;
    assert v <= w by { assert ValueOf(ps[k]) <= ValueOf(ps[k + 1]); }
    forall j | k + 1 <= j < |ps| ensures ps[j].value >= r {
      assert ValueOf(ps[k + 1]) <= ValueOf(ps[j]);
    }
    forall j | 0 <= j < k + 1 ensures ps[j].value <= r {
      assert ValueOf(ps[j]) <= ValueOf(ps[k]);
    }
    WeightSplit(ps, k + 1);
    HalvesAround(ps, r, k + 1, k + 1);
  }

  /** The other case of MedianOfSorted: k is the first position after which at
      most half of the weight lies. */
  lemma {:induction false} NoTieHalves(ps: seq<Weighted>, k: nat, r: real)
    requires k < |ps| && SortedBy(ps, ValueOf)
    requires forall j :: 0 <= j < |ps| ==> ps[j].weight >= 0.0
    requires WeightAfter(ps, k) <= SumOf(ps, WeightOf) / 2.0
    requires k > 0 ==> WeightAfter(ps, k - 1) > SumOf(ps, WeightOf) / 2.0
    requires r == ps[k].value
    ensures 2.0 * SumOf(ps, Below(r)) <= SumOf(ps, WeightOf)
    ensures 2.0 * SumOf(ps, Above(r)) <= SumOf(ps, WeightOf)
  {
    forall j | k <= j < |ps| ensures ps[j].value >= r {
      assert ValueOf(ps[k]) <= ValueOf(ps[j]);
    }
    forall j | 0 <= j < k + 1 ensures ps[j].value <= r {
      assert ValueOf(ps[j]) <= ValueOf(ps[k]);
    }
    WeightSplit(ps, k);
    WeightSplit(ps, k + 1);
    if k > 0 {
      assert ps[(k - 1) + 1..] == ps[k..];
      assert WeightAfter(ps, k - 1) == SumOf(ps[k..], WeightOf);
    } else {
      assert ps[..k] == [];
      SumOfNonNegative(ps, WeightOf);
    }
    HalvesAround(ps, r, k, k + 1);
  }

  /** For pairs sorted by value, at most half of the weight lies strictly below
      MedianOfSorted and at most half strictly above it; it lies between the
      values at two positions of ps. */
  lemma {:induction false} MedianOfSortedIsMedian(ps: seq<Weighted>)
    requires |ps| > 0 && SumOf(ps, WeightOf) > 0.0 && SortedBy(ps, ValueOf)
    requires forall j :: 0 <= j < |ps| ==> ps[j].weight >= 0.0
    ensures 2.0 * SumOf(ps, Below(MedianOfSorted(ps))) <= SumOf(ps, WeightOf)
    ensures 2.0 * SumOf(ps, Above(MedianOfSorted(ps))) <= SumOf(ps, WeightOf)
    ensures exists a, b :: 0 <= a < |ps| && 0 <= b < |ps|
                        && ps[a].value <= MedianOfSorted(ps) <= ps[b].value
  {
    var half := SumOf(ps, WeightOf) / 2.0;
    var k := LowerMedianIndex(ps, half, 0);
    var r := MedianOfSorted(ps);
    if WeightAfter(ps, k) == half {
      assert k + 1 < |ps|;
      TieHalves(ps, k, r);
    } else {
      NoTieHalves(ps, k, r);
      assert ps[k].value <= r <= ps[k].value;
    }
  }

  /** The weighted median: at most half of the total weight lies strictly below
      it, at most half strictly above it, and it lies between the least and the
      greatest value. */
  lemma {:induction false} WeightedMedianIsMedian(values: seq<real>, weights: seq<real>)
    requires WeightedInput(values, weights)
    ensures 2.0 * SumOf(Zip(values, weights), Below(WeightedMedianOf(values, weights))) <= SumOf(weights, Id)
    ensures 2.0 * SumOf(Zip(values, weights), Above(WeightedMedianOf(values, weights))) <= SumOf(weights, Id)
    ensures exists a, b :: 0 <= a < |values| && 0 <= b < |values|
                        && values[a] <= WeightedMedianOf(values, weights) <= values[b]
  {
    var zipped := Zip(values, weights);
    var r := WeightedMedianOf(values, weights);
    SortedMedianHalves(values, weights);
    SumOfSort(zipped, ValueOf, Below(r));
    SumOfSort(zipped, ValueOf, Above(r));
    WeightedMedianBetween(values, weights);
  }

  /** The halves of the sorted pairs on either side of the weighted median. */
  lemma {:induction false} SortedMedianHalves(values: seq<real>, weights: seq<real>)
    requires WeightedInput(values, weights)
    ensures 2.0 * SumOf(SortedPairs(values, weights), Below(WeightedMedianOf(values, weights))) <= SumOf(weights, Id)
    ensures 2.0 * SumOf(SortedPairs(values, weights), Above(WeightedMedianOf(values, weights))) <= SumOf(weights, Id)
  {
    SortedPairsFacts(values, weights);
    SortBySorted(Zip(values, weights), ValueOf);
    MedianOfSortedIsMedian(SortedPairs(values, weights));
  }

  /** The weighted median lies between two of the values. */
  lemma {:induction false} WeightedMedianBetween(values: seq<real>, weights: seq<real>)
    requires WeightedInput(values, weights)
    ensures exists a, b :: 0 <= a < |values| && 0 <= b < |values|
                        && values[a] <= WeightedMedianOf(values, weights) <= values[b]
  {
    var ps := SortedPairs(values, weights);
    var r := WeightedMedianOf(values, weights);
    SortedPairsFacts(values, weights);
    SortBySorted(Zip(values, weights), ValueOf);
    MedianOfSortedIsMedian(ps);
    var a, b :| 0 <= a < |ps| && 0 <= b < |ps| && ps[a].value <= r <= ps[b].value;
    var i := SortedPairValue(values, weights, a);
    var j := SortedPairValue(values, weights, b);
    assert values[i] <= r <= values[j];
  }

  /** Every value of the sorted pairs is one of the values. */
  lemma {:induction false} SortedPairValue(values: seq<real>, weights: seq<real>, a: nat) returns (i: nat)
    requires |values| == |weights| && a < |values|
    ensures i < |values| && values[i] == SortedPairs(values, weights)[a].value
  {
    var zipped := Zip(values, weights);
    var ps := SortedPairs(values, weights);
    SortByPermutes(zipped, ValueOf);
    assert ps[a] in multiset(zipped);
    i :| 0 <= i < |zipped| && zipped[i] == ps[a];
  }

  // ---------------------------------------------------------------------------
  // Locating the weighted median of given pairs

  lemma {:induction false} WeightAfterStep(ps: seq<Weighted>, j: nat)
    requires j + 1 < |ps|
    ensures WeightAfter(ps, j) == ps[j + 1].weight + WeightAfter(ps, j + 1)
  {
    assert ps[j + 1..][1..] == ps[j + 2..];
  }

  /** With no negative weight, less weight lies after a later position. */
  lemma {:induction false} WeightAfterMono(ps: seq<Weighted>, j: nat, k: nat)
    requires j <= k < |ps| && forall i :: 0 <= i < |ps| ==> ps[i].weight >= 0.0
    ensures WeightAfter(ps, j) >= WeightAfter(ps, k)
    decreases k - j
  {
    if j < k {
      WeightAfterStep(ps, j);
      WeightAfterMono(ps, j + 1, k);
    }
  }

  /** MedianOfSorted picks position k as soon as at most half of the weight lies
      after k and more than half after k - 1. */
  lemma {:induction false} MedianAt(ps: seq<Weighted>, k: nat)
    requires k < |ps| && SumOf(ps, WeightOf) > 0.0
    requires forall i :: 0 <= i < |ps| ==> ps[i].weight >= 0.0
    requires WeightAfter(ps, k) <= SumOf(ps, WeightOf) / 2.0
    requires k > 0 ==> WeightAfter(ps, k - 1) > SumOf(ps, WeightOf) / 2.0
    ensures WeightAfter(ps, k) == SumOf(ps, WeightOf) / 2.0 ==>
      k + 1 < |ps| && MedianOfSorted(ps) == (ps[k].value + ps[k + 1].value) / 2.0
    ensures WeightAfter(ps, k) != SumOf(ps, WeightOf) / 2.0 ==> MedianOfSorted(ps) == ps[k].value
  {
    var half := SumOf(ps, WeightOf) / 2.0;
    forall j | 0 <= j < k ensures WeightAfter(ps, j) > half {
      WeightAfterMono(ps, j, k - 1);
    }
    LowerMedianIndexUnique(ps, half, k);
  }

  /** The weighted median of a single value is that value. */
  lemma {:induction false} SingleWeighted(v: real, w: real)
    requires w > 0.0
    ensures WeightedInput([v], [w])
    ensures WeightedMedianOf([v], [w]) == v
  {
    var z := Zip([v], [w]);
    assert z == [Weighted(v, w)];
    assert z[..0] == [];
    SortByStep(z, ValueOf, 0);
    assert z[..1] == z;
    var ps := SortBy(z, ValueOf);
    assert ps == z;
    assert ps[1..] == [];
    ZipWeights([v], [w]);
    MedianAt(ps, 0);
  }

  // ---------------------------------------------------------------------------
  // Equal weights

  /** n weights of one. */
  function Ones(n: nat): (ws: seq<real>)
    ensures |ws| == n && forall j :: 0 <= j < n ==> ws[j] == 1.0
  {
    seq(n, _ => 1.0)
  }

  lemma {:induction false} InsertUnit(x: real, s: seq<real>)
    ensures InsertBy(Weighted(x, 1.0), Zip(s, Ones(|s|)), ValueOf) == Zip(InsertBy(x, s, Id), Ones(|s| + 1))
  {
    var z := Zip(s, Ones(|s|));
    if s == [] {
    } else if x < s[0] {
      assert InsertBy(x, s, Id) == [x] + s;
      assert InsertBy(Weighted(x, 1.0), z, ValueOf) == [Weighted(x, 1.0)] + z;
      ZipUnitCons(x, s);
    } else {
      var r := InsertBy(x, s[1..], Id);
      assert z[1..] == Zip(s[1..], Ones(|s| - 1));
      InsertUnit(x, s[1..]);
      assert InsertBy(x, s, Id) == [s[0]] + r;
      assert InsertBy(Weighted(x, 1.0), z, ValueOf) == [z[0]] + InsertBy(Weighted(x, 1.0), z[1..], ValueOf);
      ZipUnitCons(s[0], r);
    }
  }

  /** Pairing with unit weights commutes with putting a value in front. */
  lemma {:induction false} ZipUnitCons(a: real, r: seq<real>)
    ensures Zip([a] + r, Ones(|r| + 1)) == [Weighted(a, 1.0)] + Zip(r, Ones(|r|))
  {
  }

  /** With every weight one, sorting the pairs sorts the values. */
  lemma {:induction false} SortUnit(s: seq<real>)
    ensures SortBy(Zip(s, Ones(|s|)), ValueOf) == Zip(SortBy(s, Id), Ones(|s|))
  {
    if s != [] {
      var n := |s|;
      var z := Zip(s, Ones(n));
      assert z[..n - 1] == Zip(s[..n - 1], Ones(n - 1));
      SortUnit(s[..n - 1]);
      InsertUnit(s[n - 1], SortBy(s[..n - 1], Id));
    }
  }

  /** With every weight one, k + 1 ... |t| - 1 carry the weight after k. */
  lemma {:induction false} UnitWeightAfter(t: seq<real>, k: nat)
    requires k < |t|
    ensures WeightAfter(Zip(t, Ones(|t|)), k) == (|t| - 1 - k) as real
  {
    var ps := Zip(t, Ones(|t|));
    SumOfOnes(ps[k + 1..], WeightOf);
  }

  /** With every weight one, the weighted median of numbers already in order is
      their middle. */
  lemma {:induction false} UnitMedianOfSorted(t: seq<real>)
    requires |t| > 0
    ensures SumOf(Zip(t, Ones(|t|)), WeightOf) == |t| as real
    ensures MedianOfSorted(Zip(t, Ones(|t|))) == Middle(t)
  {
    var n := |t|;
    var ps := Zip(t, Ones(n));
    SumOfOnes(ps, WeightOf);
    var k := (n - 1) / 2;
    UnitWeightAfter(t, k);
    if k > 0 {
      UnitWeightAfter(t, k - 1);
    }
    MedianAt(ps, k);
    if n % 2 == 0 {
      assert k + 1 == n / 2 && 2 * (n - 1 - k) == n;
      assert MedianOfSorted(ps) == (t[k] + t[k + 1]) / 2.0;
    } else {
      assert k == n / 2 && 2 * (n - 1 - k) == n - 1;
      assert MedianOfSorted(ps) == t[k];
    }
  }

  /** With every weight one, the weighted median is the exact median. */
  lemma {:induction false} UniformWeights(xs: seq<real>)
    requires |xs| > 0
    ensures WeightedInput(xs, Ones(|xs|))
    ensures WeightedMedianOf(xs, Ones(|xs|)) == ExactMedian(xs)
  {
    var n := |xs|;
    var t := SortBy(xs, Id);
    SumOfOnes(Ones(n), Id);
    SortUnit(xs);
    UnitMedianOfSorted(t);
  }

  // ---------------------------------------------------------------------------
  // The tie test as written: Math.round(sum) == S/2

  /** Math.round: the nearest integer, a half rounded up. */
  function Round(x: real): (r: int)
    ensures r as real - 0.5 <= x < r as real + 0.5
  {
    (x + 0.5).Floor
  }

  /** MedianOfSorted with the tie test of index.js:109, which rounds the weight
      after k before comparing it with half of the total. */
  function MedianOfSortedRounded(ps: seq<Weighted>): real
    requires |ps| > 0 && SumOf(ps, WeightOf) > 0.0
  {
    var total := SumOf(ps, WeightOf);
    var k := LowerMedianIndex(ps, total / 2.0, 0);
    if Round(WeightAfter(ps, k)) as real == total / 2.0 then
      assert k + 1 < |ps|;
      (ps[k].value + ps[k + 1].value) / 2.0
    else ps[k].value
  }

  /** The weighted median of index.js:86-114 with its rounded tie test. */
  function WeightedMedianRoundedOf(values: seq<real>, weights: seq<real>): real
    requires WeightedInput(values, weights)
  {
    SortedPairsFacts(values, weights);
    MedianOfSortedRounded(SortedPairs(values, weights))
  }

  /** Rounding turns a weight of 0.8 after the first value into a tie with half of
      2.0, so the rounded test averages 1 and 2 although 1.2 of the 2.0 lies
      strictly below that average; the exact test answers 1. */
  lemma {:induction false} RoundedTieMisses(values: seq<real>, weights: seq<real>)
    requires values == [1.0, 2.0] && weights == [1.2, 0.8]
    ensures WeightedInput(values, weights)
    ensures WeightedMedianRoundedOf(values, weights) == 1.5
    ensures 2.0 * SumOf(Zip(values, weights), Below(1.5)) > SumOf(weights, Id)
    ensures WeightedMedianOf(values, weights) == 1.0
  {
    var z := Zip(values, weights);
    assert z == [Weighted(1.0, 1.2), Weighted(2.0, 0.8)];
    assert z[..1] == [Weighted(1.0, 1.2)];
    SortByStep(z, ValueOf, 1);
    assert z[..2] == z;
    var ps := SortBy(z, ValueOf);
    assert ps == z;
    assert ps[2..] == [];
    WeightAfterStep(ps, 0);
    assert WeightAfter(ps, 0) == 0.8;
    MedianAt(ps, 0);
    ZipWeights(values, weights);
    assert z[1..] == [Weighted(2.0, 0.8)] && z[1..][1..] == [];
    assert Below(1.5)(z[0]) == 1.2 && Below(1.5)(z[1]) == 0.0;
    assert SumOf(z[1..], Below(1.5)) == 0.0;
    assert SumOf(z, Below(1.5)) == 1.2;
  }

  /** x is a whole number. */
  ghost predicate Whole(x: real) {
    x == x.Floor as real
  }

  lemma {:induction false} SumOfWhole<T>(s: seq<T>, f: T -> real)
    requires forall j :: 0 <= j < |s| ==> Whole(f(s[j]))
    ensures Whole(SumOf(s, f))
  {
    if s != [] {
      SumOfWhole(s[1..], f);
      var i, m := f(s[0]).Floor, SumOf(s[1..], f).Floor;
      assert SumOf(s, f) == (i + m) as real;
      assert ((i + m) as real).Floor == i + m;
    }
  }

  lemma {:induction false} RoundWhole(x: real)
    requires Whole(x)
    ensures Round(x) as real == x
  {
    var n, r := x.Floor, Round(x);
    assert r as real - 0.5 <= n as real < r as real + 0.5;
    assert r - 1 < n < r + 1;
  }

  /** On pairs with whole weights the weight after every position is whole, so
      rounding it changes nothing. */
  lemma {:induction false} RoundedAgreesSorted(ps: seq<Weighted>)
    requires |ps| > 0 && SumOf(ps, WeightOf) > 0.0
    requires forall j :: 0 <= j < |ps| ==> Whole(ps[j].weight)
    ensures MedianOfSortedRounded(ps) == MedianOfSorted(ps)
  {
    var total := SumOf(ps, WeightOf);
    var k := LowerMedianIndex(ps, total / 2.0, 0);
    var rest := ps[k + 1..];
    forall j | 0 <= j < |rest| ensures Whole(WeightOf(rest[j])) {
      assert rest[j] == ps[k + 1 + j];
    }
    SumOfWhole(rest, WeightOf);
    RoundWhole(WeightAfter(ps, k));
  }

  /** Where the weight after the stopping position k is whole, fractional weights
      included, rounding it changes nothing: both tie tests give the same result. */
  lemma {:induction false} RoundedAgreesAt(ps: seq<Weighted>, k: nat)
    requires k < |ps| && SumOf(ps, WeightOf) > 0.0
    requires forall i :: 0 <= i < |ps| ==> ps[i].weight >= 0.0
    requires WeightAfter(ps, k) <= SumOf(ps, WeightOf) / 2.0
    requires k > 0 ==> WeightAfter(ps, k - 1) > SumOf(ps, WeightOf) / 2.0
    requires Whole(WeightAfter(ps, k))
    ensures MedianOfSortedRounded(ps) == MedianOfSorted(ps)
  {
    var half := SumOf(ps, WeightOf) / 2.0;
    forall j | 0 <= j < k ensures WeightAfter(ps, j) > half {
      WeightAfterMono(ps, j, k - 1);
    }
    LowerMedianIndexUnique(ps, half, k);
    RoundWhole(WeightAfter(ps, k));
  }

  /** With whole weights, as the levels of the estimator carry, rounding changes
      nothing: both tie tests give the same weighted median. */
  lemma {:induction false} RoundedAgreesOnWholeWeights(values: seq<real>, weights: seq<real>)
    requires WeightedInput(values, weights)
    requires forall j :: 0 <= j < |weights| ==> Whole(weights[j])
    ensures WeightedMedianRoundedOf(values, weights) == WeightedMedianOf(values, weights)
  {
    var zipped := Zip(values, weights);
    var ps := SortedPairs(values, weights);
    SortedPairsFacts(values, weights);
    SortByPermutes(zipped, ValueOf);
    forall j | 0 <= j < |ps| ensures Whole(ps[j].weight) {
      assert ps[j] in multiset(zipped);
      assert ps[j] in zipped;
    }
    RoundedAgreesSorted(ps);
  }
}
