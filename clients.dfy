/** Code that uses the class the way index.test.js:63-82 does: it builds an
    estimator, writes to it and reads it back, and every step is tied to the
    whole-run functions of module Runs. */
module Clients {
  import opened Wrappers
  import opened Medians
  import opened Hierarchy
  import opened Runs
  import opened Estimator

  /** One more write on an estimator whose state is the run of xs gives the run
      of xs followed by x. */
  method WriteNext(r: Remedian, ghost xs: seq<real>, x: real)
    requires r.Valid() && r.bufferSize != 1 && r.Model() == Run(xs, r.bufferSize)
    modifies r.Repr
    ensures r.Valid() && fresh(r.Repr - old(r.Repr))
    ensures r.Model() == Run(xs + [x], r.bufferSize)
  {
    RunLast(xs + [x], r.bufferSize);
    assert (xs + [x])[..|xs|] == xs;
    r.Write(x);
  }

  /** new Remedian(n) followed by one write per element of xs, in order, reaches
      the state Runs.Run describes. */
  method WriteAll(xs: seq<real>, n: nat) returns (r: Remedian)
    requires n != 1
    ensures fresh(r) && fresh(r.Repr) && r.Valid() && r.bufferSize == n
    ensures r.Model() == Run(xs, n)
  {
    r := new Remedian(n);
    assert r.Model() == Run(xs[..0], n);
    for k := 0 to |xs|
      invariant fresh(r) && fresh(r.Repr) && r.Valid() && r.bufferSize == n
      invariant r.Model() == Run(xs[..k], n)
    {
      assert xs[..k + 1] == xs[..k] + [xs[k]];
      WriteNext(r, xs[..k], xs[k]);
    }
    assert xs[..|xs|] == xs;
  }

  /** index.test.js:64-69: a new estimator has no level, and its first write
      creates exactly one. */
  method FirstWriteCreatesBuffer() returns (before: nat, after: nat)
    ensures before == 0 && after == 1
  {
    var r := new Remedian(3);
    before := |r.buffers|;
    assert r.Model() == Run([], 3);
    WriteNext(r, [], 1.0);
    assert [] + [1.0] == [1.0];
    FirstWriteCreatesLevel(1.0, 3);
    after := |r.buffers|;
  }

  /** index.test.js:71-81: with bufferSize 3, writing 1 and 2 keeps one level;
      writing 3 as well gives two levels, with the median 2 in slot 0 of level 1,
      and the estimate is 2. */
  method CascadeCreatesBuffer() returns (afterTwo: nat, afterThree: nat, slot: Slot, median: Option<real>)
    ensures afterTwo == 1 && afterThree == 2 && slot == Some(2.0) && median == Some(2.0)
  {
    var r := new Remedian(3);
    assert r.Model() == Run([], 3);
    WriteNext(r, [], 1.0);
    assert [] + [1.0] == [1.0];
    WriteNext(r, [1.0], 2.0);
    assert [1.0] + [2.0] == [1.0, 2.0];
    CascadeExample();
    afterTwo := |r.buffers|;
    WriteNext(r, [1.0, 2.0], 3.0);
    assert [1.0, 2.0] + [3.0] == [1.0, 2.0, 3.0];
    afterThree := |r.buffers|;
    assert r.buffers[1][..] == r.levels[1];
    slot := r.buffers[1][0];
    ExactUpToFirstCarry([1.0, 2.0, 3.0], 3);
    MedianOfThree();
    median := r.GetMedian();
  }
}
