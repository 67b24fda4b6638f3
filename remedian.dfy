/** The Remedian class of index.js:9-191: the levels live in arrays of slots,
    this.i is a field, and every method is proved to act on the levels as the
    functions of module Hierarchy say. */
module Estimator {
  import opened Wrappers
  import opened Sorting
  import opened Medians
  import opened Hierarchy

  class Remedian {
    /** The number of slots of every level (this.bufferSize). */
    const bufferSize: nat
    /** this.buffers: level j is buffers[j]. */
    var buffers: seq<array<Slot>>
    /** this.i: the current level. */
    var i: nat
    /** The contents of the levels: levels[j] is buffers[j][..]. */
    ghost var levels: seq<Level>
    /** The object and the arrays of its levels. */
    ghost var Repr: set<object>

    ghost function Model(): State
      reads this
    {
      State(levels, i)
    }

    /** Every level is an array of its own whose slots are levels[j], and the
        levels are well formed. */
    ghost predicate Valid()
      reads this, Repr
    {
      && this in Repr
      && |levels| == |buffers|
      && (forall j :: 0 <= j < |buffers| ==> buffers[j] in Repr)
      && (forall j :: 0 <= j < |buffers| ==> buffers[j][..] == levels[j])
      && (forall a, b :: 0 <= a < b < |buffers| ==> buffers[a] != buffers[b])
      && WellFormed(levels, bufferSize)
    }

    /** index.js:14-17. The source leaves this.i unset until the first write;
        here it starts at 0, which nothing reads before a write sets it. */
    constructor (bufferSize: nat)
      ensures this.bufferSize == bufferSize && buffers == [] && i == 0
      ensures Valid() && levels == [] && fresh(Repr)
    {
      this.bufferSize := bufferSize;
      buffers := [];
      i := 0;
      levels := [];
      Repr := {this};
    }

    /** index.js:19-26: a new level of empty slots is appended exactly when i is
        past the last level; the existing levels are left as they are. */
    method CreateBuffer()
      requires Valid()
      modifies this
      ensures Valid() && i == old(i)
      ensures levels == Grow(old(levels), i, bufferSize)
      ensures old(Repr) <= Repr && fresh(Repr - old(Repr))
    {
      if i > |buffers| - 1 {
        var newBuffer := new Slot[bufferSize](_ => None);
        EmptyLevelFacts(bufferSize);
        assert newBuffer[..] == EmptyLevel(bufferSize);
        buffers := buffers + [newBuffer];
        levels := levels + [EmptyLevel(bufferSize)];
        Repr := Repr + {newBuffer};
      }
    }

    /** index.js:28-31: the last slot of the current level is occupied. */
    function IsCurrentBufferFull(): (full: bool)
      reads this, Repr
      requires Valid() && i < |buffers|
      ensures full == IsFull(levels[i])
    {
      var slots := buffers[i];
      slots.Length > 0 && slots[slots.Length - 1].Some?
    }

    /** index.js:38-46: level position has no occupied slot. */
    method BufferEmpty(position: nat) returns (empty: bool)
      requires Valid() && position < |buffers|
      ensures empty == IsEmpty(levels[position])
    {
      var slots := buffers[position];
      for j := 0 to slots.Length
        invariant forall k :: 0 <= k < j ==> slots[k].None?
      {
        if slots[j].Some? {
          return false;
        }
      }
      return true;
    }

    /** index.js:53-66: the value goes into the lowest-indexed empty slot of the
        current level, nothing else changes, and the result tells whether the
        current level is now full. */
    method InsertIntoBuffer(number: real) returns (full: bool)
      requires Valid() && i < |buffers|
      modifies this, buffers[i]
      ensures Valid() && i == old(i) && buffers == old(buffers) && Repr == old(Repr)
      ensures levels == old(levels)[i := Insert(old(levels)[i], number)]
      ensures full == IsFull(levels[i])
    {
      var slots := buffers[i];
      InsertAppends(slots[..], number);
      FillFirstFree(slots, number);
      levels := levels[i := slots[..]];
      full := IsCurrentBufferFull();
    }

    /** index.js:68-78: the exact median of the full current level, computed on
        a sorted copy so that the level itself is not reordered. */
    function CurrentBufferMedian(): (median: real)
      reads this, Repr
      requires Valid() && i < |buffers| && IsFull(levels[i])
      ensures |Values(levels[i])| == bufferSize > 0
      ensures median == ExactMedian(Values(levels[i]))
    {
      FullShape(levels[i]);
      var sorted := SortBy(Values(buffers[i][..]), Id);
      var middle := |sorted| / 2;
      if |sorted| % 2 == 0 then (sorted[middle - 1] + sorted[middle]) / 2.0
      else sorted[middle]
    }

    /** index.js:119-124: every slot of the current level is emptied. */
    method ClearCurrentBuffer()
      requires Valid() && i < |buffers|
      modifies this, buffers[i]
      ensures Valid() && i == old(i) && buffers == old(buffers) && Repr == old(Repr)
      ensures levels == old(levels)[i := EmptyLevel(bufferSize)]
    {
      var slots := buffers[i];
      for j := 0 to slots.Length
        invariant unchanged(this)
        invariant forall k :: 0 <= k < j ==> slots[k] == None
      {
        slots[j] := None;
      }
      assert slots[..] == EmptyLevel(bufferSize);
      EmptyLevelFacts(bufferSize);
      levels := levels[i := EmptyLevel(bufferSize)];
    }

    /** index.js:139-148: the numbers held by level position, in slot order. */
    method GetValuesFromBuffer(position: nat) returns (values: seq<real>)
      requires Valid() && position < |buffers|
      ensures values == Values(levels[position])
    {
      var slots := buffers[position];
      values := [];
      for j := 0 to slots.Length
        invariant values == Values(slots[..j])
      {
        assert slots[..j + 1][..j] == slots[..j];
        if slots[j].Some? {
          values := values + [slots[j].value];
        }
      }
      assert slots[..slots.Length] == slots[..];
    }

    /** index.js:130-137: a level other than the top one holds a value, or the
        current level holds a second one. */
    method ShouldCalculateWeightedMedian() returns (should: bool)
      requires Valid() && i < |buffers|
      ensures should == ShouldWeight(levels, i)
    {
      for j := 0 to |buffers| - 1
        invariant forall k :: 0 <= k < j ==> IsEmpty(levels[k])
      {
        var empty := BufferEmpty(j);
        if !empty {
          return true;
        }
      }
      var slots := buffers[i];
      return slots.Length > 1 && slots[1].Some?;
    }

    /** The loop of index.js:159-167: the values of all levels, bottom level
        first, each value at level j paired with weight bufferSize^j. */
    method CollectWeighted() returns (values: seq<real>, weights: seq<real>)
      requires Valid()
      ensures values == AllValues(levels)
      ensures weights == AllWeights(levels, bufferSize)
    {
      values, weights := [], [];
      for j := 0 to |buffers|
        invariant values == AllValues(levels[..j])
        invariant weights == AllWeights(levels[..j], bufferSize)
      {
        var bufferValues := GetValuesFromBuffer(j);
        var bufferWeights := Copies(Pow(bufferSize, j) as real, |bufferValues|);
        assert levels[..j + 1][..j] == levels[..j];
        values := values + bufferValues;
        weights := weights + bufferWeights;
      }
      assert levels[..|buffers|] == levels;
    }

    /** index.js:159-170: the weighted median of every value held, a value at
        level j weighing bufferSize^j. */
    method WeightedOfAll() returns (m: real)
      requires Valid() && i < |buffers| && ShouldWeight(levels, i)
      ensures WeightedInput(AllValues(levels), AllWeights(levels, bufferSize))
      ensures m == WeightedMedianOf(AllValues(levels), AllWeights(levels, bufferSize))
    {
      WeightedPathInput(levels, i, bufferSize);
      var values, weights := CollectWeighted();
      m := WeightedMedian(values, weights);
    }

    /** index.js:154-173: none before the first write; otherwise the weighted
        median of all values, a value at level j weighing bufferSize^j, or, on
        the fast path, slot 0 of the current level. Nothing is modified. After
        any write (with at least two slots per level) the answer is a value and
        the weighted median of everything held. */
    method GetMedian() returns (median: Option<real>)
      requires Valid() && (|buffers| > 0 ==> i < |buffers|)
      ensures median == Estimate(Model(), bufferSize)
      ensures bufferSize >= 2 && |buffers| > 0 && Settled(Model(), bufferSize) ==>
        WeightedInput(AllValues(levels), AllWeights(levels, bufferSize))
        && median == Some(WeightedMedianOf(AllValues(levels), AllWeights(levels, bufferSize)))
    {
      if |buffers| == 0 {
        return None;
      }
      var should := ShouldCalculateWeightedMedian();
      if should {
        var m := WeightedOfAll();
        median := Some(m);
      } else {
        var slots := buffers[i];
        median := if slots.Length > 0 then slots[0] else None;
      }
      if bufferSize >= 2 && Settled(Model(), bufferSize) {
        EstimateIsWeightedMedian(Model(), bufferSize);
      }
    }

    /** index.js:182-183 and 187-188: the current level is created if it does
        not exist yet, and the number goes into it. */
    method InsertCreating(number: real) returns (full: bool)
      requires Valid() && i <= |buffers|
      modifies Repr
      ensures Valid() && i == old(i) < |buffers|
      ensures var grown := Grow(old(levels), i, bufferSize);
        levels == grown[i := Insert(grown[i], number)]
      ensures full == IsFull(levels[i])
      ensures |buffers| == old(|buffers|) || (|buffers| == old(|buffers|) + 1 && (bufferSize != 1 ==> !full))
      ensures old(Repr) <= Repr && fresh(Repr - old(Repr))
    {
      CreateBuffer();
      ghost var grown := levels;
      full := InsertIntoBuffer(number);
      if |buffers| != old(|buffers|) {
        EmptyLevelFacts(bufferSize);
        InsertAppends(grown[i], number);
        FullShape(levels[i]);
      }
    }

    /** One round of the loop of index.js:184-189: the median of the full
        current level is taken, the level cleared, and the median inserted one
        level up (created if needed); this is Carry. */
    method PromoteMedian() returns (full: bool)
      requires Valid() && bufferSize != 1 && i < |buffers| && IsFull(levels[i])
      modifies Repr
      ensures Valid() && i == old(i) + 1 && i < |buffers|
      ensures levels == Carry(old(levels), old(i), bufferSize)
      ensures full == IsFull(levels[i])
      ensures old(Repr) <= Repr && fresh(Repr - old(Repr))
    {
      ghost var start := levels;
      var value := CurrentBufferMedian();
      ClearCurrentBuffer();
      ghost var cleared := levels;
      i := i + 1;
      full := InsertCreating(value);
      CarryStep(start, i - 1, bufferSize, value, cleared, Grow(cleared, i, bufferSize), levels);
    }

    /** index.js:180-183: the current level becomes level 0, which is created
        on the first write, and the number is inserted there; this is Start. */
    method InsertAtBottom(number: real) returns (full: bool)
      requires Valid()
      modifies Repr
      ensures Valid() && i == 0 < |buffers|
      ensures levels == Start(old(levels), number, bufferSize)
      ensures full == IsFull(levels[0])
      ensures old(Repr) <= Repr && fresh(Repr - old(Repr))
    {
      i := 0;
      full := InsertCreating(number);
    }

    /** The loop of index.js:184-189: while the current level is full, its
        median moves one level up; the levels end as Settle says. */
    method Cascade(full: bool)
      requires Valid() && bufferSize != 1 && i < |buffers| && full == IsFull(levels[i])
      modifies Repr
      ensures Valid() && fresh(Repr - old(Repr))
      ensures Model() == Settle(old(levels), old(i), bufferSize)
    {
      var carrying := full;
      ghost var target := Settle(levels, i, bufferSize);
      while carrying
        invariant Valid() && i < |buffers|
        invariant carrying == IsFull(levels[i])
        invariant Settle(levels, i, bufferSize) == target
        invariant old(Repr) <= Repr && fresh(Repr - old(Repr))
        decreases |buffers| - i, if carrying then 1 else 0
      {
        ghost var before, lvl := levels, i;
        carrying := PromoteMedian();
        assert Settle(before, lvl, bufferSize) == CarryOn(before, lvl, bufferSize);
        assert |levels| == |before| || (|levels| == |before| + 1 && !carrying);
      }
    }

    /** index.js:179-190: from level 0 (created on the first write), insert the
        number; while the current level is full, replace the number by that
        level's exact median, clear the level, move up one level, creating it if
        needed, and insert again. With one slot per level the loop never ends,
        so that size is excluded. Between writes no level is full. */
    method Write(number: real)
      requires Valid() && bufferSize != 1
      modifies Repr
      ensures Valid() && fresh(Repr - old(Repr))
      ensures Model() == Hierarchy.Write(old(levels), number, bufferSize)
      ensures old(Quiet(levels, bufferSize)) ==> Settled(Model(), bufferSize)
    {
      ghost var start := levels;
      var full := InsertAtBottom(number);
      Cascade(full);
      if Quiet(start, bufferSize) {
        WriteSettles(start, number, bufferSize);
      }
    }

    /** Reading the estimate twice in a row gives the same answer. */
    method ReadTwice() returns (first: Option<real>, second: Option<real>)
      requires Valid() && (|buffers| > 0 ==> i < |buffers|)
      ensures first == second
    {
      first := GetMedian();
      second := GetMedian();
    }
  }

  /** The search and the store of index.js:53-64: the first empty slot of the
      array, if any, receives the number; a full array is left as it is. */
  method FillFirstFree(slots: array<Slot>, number: real)
    modifies slots
    ensures slots[..] == Insert(old(slots[..]), number)
  {
    ghost var before := slots[..];
    var freePosition := -1;
    for j := 0 to slots.Length
      invariant unchanged(slots)
      invariant freePosition == -1 ==> forall k :: 0 <= k < j ==> slots[k].Some?
      invariant freePosition != -1 ==> freePosition == FirstFree(before) < |before|
    {
      if slots[j].None? {
        freePosition := j;
        break;
      }
    }
    assert freePosition == -1 ==> FirstFree(before) == slots.Length;
    if freePosition >= 0 {
      slots[freePosition] := Some(number);
    }
  }
}
