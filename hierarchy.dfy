/** The buffer hierarchy of the estimator as values: each level is a row of
    slots of one fixed length, a slot empty or holding a number; the levels are
    indexed from 0 and level j summarises the values written in blocks of
    bufferSize^j. The class in remedian.dfy keeps this state in arrays and is
    proved to follow the functions here. */
module Hierarchy {
  import opened Wrappers
  import opened Sorting
  import opened Medians

  type Slot = Option<real>

  type Level = seq<Slot>

  /** A level of n slots, all empty, as new Array(n).fill(undefined) builds it. */
  function EmptyLevel(n: nat): (l: Level)
    ensures |l| == n && forall j :: 0 <= j < n ==> l[j] == None
  {
    seq(n, _ => None)
  }

  /** The slots holding vs, in order. */
  function Filled(vs: seq<real>): (l: Level)
    ensures |l| == |vs| && forall j :: 0 <= j < |vs| ==> l[j] == Some(vs[j])
  {
    seq(|vs|, j requires 0 <= j < |vs| => Some(vs[j]))
  }

  /** index.js:28-31: a level is full when its last slot is occupied; a level of
      no slots never is. */
  predicate IsFull(l: Level) {
    |l| > 0 && l[|l| - 1].Some?
  }

  /** index.js:38-46: no slot is occupied. */
  predicate IsEmpty(l: Level) {
    forall j :: 0 <= j < |l| ==> l[j].None?
  }

  /** The occupied slots of l come before the empty ones. */
  ghost predicate PrefixFilled(l: Level) {
    forall a, b :: 0 <= a < b < |l| && l[b].Some? ==> l[a].Some?
  }

  /** The lowest-indexed empty slot of l, or |l| when every slot is occupied. */
  function FirstFree(l: Level): (j: nat)
    ensures j <= |l|
    ensures j < |l| ==> l[j].None?
    ensures forall k :: 0 <= k < j ==> l[k].Some?
  {
    if l == [] then 0
    else if l[0].None? then 0
    else 1 + FirstFree(l[1..])
  }

  /** index.js:53-64: x goes into the lowest-indexed empty slot; a level with no
      empty slot is left as it is. */
  function Insert(l: Level, x: real): (r: Level)
    ensures |r| == |l|
  {
    var j := FirstFree(l);
    if j < |l| then l[j := Some(x)] else l
  }

  /** index.js:139-148: the numbers in the occupied slots of l, in slot order. */
  function Values(l: Level): seq<real> {
    if l == [] then []
    else
      var last := l[|l| - 1];
      Values(l[..|l| - 1]) + (if last.Some? then [last.value] else [])
  }

  // ---------------------------------------------------------------------------
  // The shape of a level whose occupied slots form a prefix

  lemma {:induction false} ValuesOfEmpty(s: Level, m: nat)
    ensures Values(s + EmptyLevel(m)) == Values(s)
  {
    if m > 0 {
      var t := s + EmptyLevel(m);
      assert t[..|t| - 1] == s + EmptyLevel(m - 1);
      ValuesOfEmpty(s, m - 1);
    } else {
      assert s + EmptyLevel(m) == s;
    }
  }

  lemma {:induction false} ValuesOfFilled(vs: seq<real>)
    ensures Values(Filled(vs)) == vs
  {
    if vs != [] {
      assert Filled(vs)[..|vs| - 1] == Filled(vs[..|vs| - 1]);
      ValuesOfFilled(vs[..|vs| - 1]);
      assert vs == vs[..|vs| - 1] + [vs[|vs| - 1]];
    }
  }

  /** The numbers vs followed by m empty slots. */
  lemma {:induction false} ValuesOfShape(vs: seq<real>, m: nat)
    ensures Values(Filled(vs) + EmptyLevel(m)) == vs
  {
    ValuesOfEmpty(Filled(vs), m);
    ValuesOfFilled(vs);
  }

  /** An empty level is no values followed by empty slots. */
  lemma {:induction false} EmptyShape(n: nat)
    ensures Filled([]) + EmptyLevel(n) == EmptyLevel(n)
  {
  }

  /** Values followed by empty slots form a prefix. */
  lemma {:induction false} ShapePrefixFilled(vs: seq<real>, m: nat)
    ensures PrefixFilled(Filled(vs) + EmptyLevel(m))
  {
    var l := Filled(vs) + EmptyLevel(m);
    forall a, b | 0 <= a < b < |l| && l[b].Some? ensures l[a].Some? {
      assert b < |vs|;
    }
  }

  /** A level whose occupied slots form a prefix is its values followed by empty
      slots. */
  lemma {:induction false} PrefixShape(l: Level)
    requires PrefixFilled(l)
    ensures |Values(l)| == FirstFree(l)
    ensures l == Filled(Values(l)) + EmptyLevel(|l| - |Values(l)|)
  {
    var f := FirstFree(l);
    var vs := seq(f, k requires 0 <= k < f => l[k].value);
    assert forall k :: f <= k < |l| ==> l[k] == None;
    assert l == Filled(vs) + EmptyLevel(|l| - f);
    ValuesOfShape(vs, |l| - f);
  }

  /** Inserting into a level with an empty slot appends x to its values. */
  lemma {:induction false} InsertShape(vs: seq<real>, m: nat, x: real)
    requires m > 0
    ensures Insert(Filled(vs) + EmptyLevel(m), x) == Filled(vs + [x]) + EmptyLevel(m - 1)
  {
    var l := Filled(vs) + EmptyLevel(m);
    assert l[|vs|] == None;
  }

  /** A level full under prefix-fill: every slot occupied. */
  lemma {:induction false} FullShape(l: Level)
    requires PrefixFilled(l)
    ensures IsFull(l) <==> |l| > 0 && |Values(l)| == |l|
    ensures IsEmpty(l) <==> Values(l) == []
  {
    PrefixShape(l);
    var f := |Values(l)|;
    if f == 0 {
      assert l == EmptyLevel(|l|);
    }
  }

  /** index.js:53-66 on a level whose occupied slots form a prefix: when it is not
      full, x lands in the first empty slot, its values grow by x and no other
      slot changes; when it is full it is left as it is. Either way the
      occupied slots still form a prefix. */
  lemma {:induction false} InsertAppends(l: Level, x: real)
    requires PrefixFilled(l)
    ensures PrefixFilled(Insert(l, x))
    ensures !IsFull(l) && |l| > 0 ==> Values(Insert(l, x)) == Values(l) + [x]
    ensures !IsFull(l) && |l| > 0 ==> Insert(l, x) == l[FirstFree(l) := Some(x)]
    ensures IsFull(l) || |l| == 0 ==> Insert(l, x) == l
  {
    PrefixShape(l);
    FullShape(l);
    var vs, m := Values(l), |l| - |Values(l)|;
    if m > 0 {
      InsertShape(vs, m, x);
      ValuesOfShape(vs + [x], m - 1);
      var r := Filled(vs + [x]) + EmptyLevel(m - 1);
      forall a, b | 0 <= a < b < |r| && r[b].Some? ensures r[a].Some? {
        assert b <= |vs|;
      }
    }
  }

  /** A level just emptied keeps the prefix-fill property and has no values. */
  lemma {:induction false} EmptyLevelFacts(n: nat)
    ensures PrefixFilled(EmptyLevel(n)) && IsEmpty(EmptyLevel(n)) && !IsFull(EmptyLevel(n))
    ensures Values(EmptyLevel(n)) == []
  {
    ValuesOfEmpty([], n);
    assert [] + EmptyLevel(n) == EmptyLevel(n);
  }

  // ---------------------------------------------------------------------------
  // The hierarchy and the cascade of write

  /** Every level has n slots and its occupied slots form a prefix. */
  ghost predicate WellFormed(levels: seq<Level>, n: nat) {
    forall j :: 0 <= j < |levels| ==> |levels[j]| == n && PrefixFilled(levels[j])
  }

  /** The levels and the index of the level the last write stopped at
      (this.buffers and this.i). */
  datatype State = State(levels: seq<Level>, active: nat)

  /** index.js:19-26: an empty level of n slots is appended exactly when i is
      past the last level. */
  function Grow(levels: seq<Level>, i: nat, n: nat): seq<Level> {
    if i > |levels| - 1 then levels + [EmptyLevel(n)] else levels
  }

  /** One round of index.js:185-188 and the insert of index.js:184 that follows:
      the full level lvl is emptied, the level above is created if missing, and
      the exact median of the full level goes into it. */
  function Carry(levels: seq<Level>, lvl: nat, n: nat): (r: seq<Level>)
    requires n != 1 && lvl < |levels| && WellFormed(levels, n) && IsFull(levels[lvl])
    ensures WellFormed(r, n) && lvl + 1 < |r|
    ensures |r| == if lvl + 1 == |levels| then |levels| + 1 else |levels|
    ensures lvl + 1 == |levels| ==> !IsFull(r[lvl + 1])
  {
    FullShape(levels[lvl]);
    var m := ExactMedian(Values(levels[lvl]));
    var grown := Grow(levels[lvl := EmptyLevel(n)], lvl + 1, n);
    EmptyLevelFacts(n);
    InsertAppends(grown[lvl + 1], m);
    var r := grown[lvl + 1 := Insert(grown[lvl + 1], m)];
    FullShape(r[lvl + 1]);
    r
  }

  /** index.js:184-189 from the point where a value has just been inserted at
      level lvl: while that level is full, carry its median one level up. The
      cascade stops at the first level left not full; with one slot per level it
      would never stop. */
  function Settle(levels: seq<Level>, lvl: nat, n: nat): State
    requires n != 1 && lvl < |levels| && WellFormed(levels, n)
    decreases |levels| - lvl, if IsFull(levels[lvl]) then 2 else 0
  {
    if !IsFull(levels[lvl]) then State(levels, lvl) else CarryOn(levels, lvl, n)
  }

  /** One carry out of the full level lvl, then settling from the level above. */
  function CarryOn(levels: seq<Level>, lvl: nat, n: nat): State
    requires n != 1 && lvl < |levels| && WellFormed(levels, n) && IsFull(levels[lvl])
    decreases |levels| - lvl, 1
  {
    Settle(Carry(levels, lvl, n), lvl + 1, n)
  }

  /** One round of the loop of index.js:184-189, step by step: the median of
      the full level is taken, the level emptied, the level above created if
      needed and the median inserted there. The result is Carry, and settling
      from the full level is settling from the level above it. */
  lemma {:induction false} CarryStep(levels: seq<Level>, lvl: nat, n: nat, m: real,
                                     cleared: seq<Level>, grown: seq<Level>, next: seq<Level>)
    requires n != 1 && lvl < |levels| && WellFormed(levels, n) && IsFull(levels[lvl])
    requires m == ExactMedian(Values(levels[lvl]))
    requires cleared == levels[lvl := EmptyLevel(n)]
    requires grown == Grow(cleared, lvl + 1, n)
    requires next == grown[lvl + 1 := Insert(grown[lvl + 1], m)]
    ensures next == Carry(levels, lvl, n)
    ensures lvl + 1 < |next| && WellFormed(next, n)
    ensures Settle(levels, lvl, n) == Settle(next, lvl + 1, n)
  {
  }

  /** index.js:180-184 up to the first insert: level 0 is created on the first
      write and x goes into it. */
  function Start(levels: seq<Level>, x: real, n: nat): (r: seq<Level>)
    requires WellFormed(levels, n)
    ensures WellFormed(r, n) && |r| == if |levels| == 0 then 1 else |levels|
  {
    var start := Grow(levels, 0, n);
    EmptyLevelFacts(n);
    InsertAppends(start[0], x);
    start[0 := Insert(start[0], x)]
  }

  /** index.js:179-190: write starts at level 0, inserts x there and settles the
      cascade. */
  function Write(levels: seq<Level>, x: real, n: nat): State
    requires n != 1 && WellFormed(levels, n)
  {
    Settle(Start(levels, x, n), 0, n)
  }

  /** With one slot per level the loop of index.js:184-189 never ends: on
      well-formed levels every insert leaves the level it went into full, so the
      loop test is true, and one round (clear, move up, create, insert m) gives
      well-formed levels again with the next current level existing. */
  lemma {:induction false} OneSlotLoopNeverEnds(levels: seq<Level>, i: nat, x: real, m: real)
    requires WellFormed(levels, 1) && i < |levels|
    ensures IsFull(Insert(levels[i], x))
    ensures var next := Grow(levels[i := EmptyLevel(1)], i + 1, 1);
      && i + 1 < |next|
      && WellFormed(next[i + 1 := Insert(next[i + 1], m)], 1)
  {
    InsertAppends(levels[i], x);
    EmptyLevelFacts(1);
    var cleared := levels[i := EmptyLevel(1)];
    var next := Grow(cleared, i + 1, 1);
    assert WellFormed(next, 1);
    InsertAppends(next[i + 1], m);
  }

  /** The levels between two writes: well formed, none full, and (with at least
      two slots per level) the top level holds a value. */
  ghost predicate Quiet(levels: seq<Level>, n: nat) {
    && WellFormed(levels, n)
    && (forall j :: 0 <= j < |levels| ==> !IsFull(levels[j]))
    && (n >= 2 && |levels| > 0 ==> !IsEmpty(levels[|levels| - 1]))
  }

  /** The state after a write: the levels are quiet, the active level exists,
      every level below it is empty and (with at least two slots per level) it
      holds a value. */
  ghost predicate Settled(s: State, n: nat) {
    && Quiet(s.levels, n)
    && s.active < |s.levels|
    && (forall j :: 0 <= j < s.active ==> IsEmpty(s.levels[j]))
    && (n >= 2 ==> !IsEmpty(s.levels[s.active]))
  }

  /** n to the power j. */
  function Pow(n: nat, j: nat): nat {
    if j == 0 then 1 else n * Pow(n, j - 1)
  }

  /** The number of written values the levels stand for: a value at level j
      stands for n^j of them. */
  function MassOf(levels: seq<Level>, n: nat): nat {
    if levels == [] then 0
    else MassOf(levels[..|levels| - 1], n) + |Values(levels[|levels| - 1])| * Pow(n, |levels| - 1)
  }

  lemma {:induction false} MassUpdate(levels: seq<Level>, j: nat, l: Level, n: nat)
    requires j < |levels|
    ensures MassOf(levels[j := l], n) + |Values(levels[j])| * Pow(n, j)
         == MassOf(levels, n) + |Values(l)| * Pow(n, j)
  {
    var k := |levels| - 1;
    if j < k {
      assert levels[j := l][..k] == levels[..k][j := l];
      MassUpdate(levels[..k], j, l, n);
    } else {
      assert levels[j := l][..k] == levels[..k];
    }
  }

  lemma AddOne(c: nat, q: nat)
    ensures (c + 1) * q == c * q + q
  {
  }

  lemma {:induction false} MassGrow(levels: seq<Level>, i: nat, n: nat)
    ensures MassOf(Grow(levels, i, n), n) == MassOf(levels, n)
  {
    var g := levels + [EmptyLevel(n)];
    assert g[..|g| - 1] == levels;
    EmptyLevelFacts(n);
  }

  /** What one carry does to the levels: level lvl is emptied, the level above
      gains the median and is not empty, and every other level is as it was. */
  lemma {:induction false} CarryFacts(levels: seq<Level>, lvl: nat, n: nat)
    requires n != 1 && lvl < |levels| && WellFormed(levels, n) && IsFull(levels[lvl])
    requires lvl + 1 < |levels| ==> !IsFull(levels[lvl + 1])
    ensures Carry(levels, lvl, n)[lvl] == EmptyLevel(n)
    ensures !IsEmpty(Carry(levels, lvl, n)[lvl + 1])
    ensures forall j :: 0 <= j < |levels| && j != lvl && j != lvl + 1 ==> Carry(levels, lvl, n)[j] == levels[j]
  {
    FullShape(levels[lvl]);
    var m := ExactMedian(Values(levels[lvl]));
    var grown := Grow(levels[lvl := EmptyLevel(n)], lvl + 1, n);
    EmptyLevelFacts(n);
    var up := grown[lvl + 1];
    InsertAppends(up, m);
    FullShape(up);
    var r := grown[lvl + 1 := Insert(up, m)];
    assert r == Carry(levels, lvl, n);
    FullShape(r[lvl + 1]);
  }

  /** A carry keeps the mass: the n values of the full level, each standing for
      n^lvl written values, become one value standing for n^(lvl + 1). */
  lemma {:induction false} CarryMass(levels: seq<Level>, lvl: nat, n: nat)
    requires n != 1 && lvl < |levels| && WellFormed(levels, n) && IsFull(levels[lvl])
    requires lvl + 1 < |levels| ==> !IsFull(levels[lvl + 1])
    ensures MassOf(Carry(levels, lvl, n), n) == MassOf(levels, n)
  {
    FullShape(levels[lvl]);
    var m := ExactMedian(Values(levels[lvl]));
    var cleared := levels[lvl := EmptyLevel(n)];
    var grown := Grow(cleared, lvl + 1, n);
    EmptyLevelFacts(n);
    var up := grown[lvl + 1];
    InsertAppends(up, m);
    FullShape(up);
    var r := grown[lvl + 1 := Insert(up, m)];
    assert r == Carry(levels, lvl, n);
    var p, c := Pow(n, lvl), |Values(up)|;
    assert Pow(n, lvl + 1) == n * p;
    MassUpdate(levels, lvl, EmptyLevel(n), n);
    MassGrow(cleared, lvl + 1, n);
    MassUpdate(grown, lvl + 1, Insert(up, m), n);
    assert |Values(Insert(up, m))| == c + 1;
    AddOne(c, n * p);
  }

  /** The cascade, started at a level that may be full when no other level is,
      ends in a settled state: it moves up, leaves the levels it passed empty,
      adds at most one level on top, touches no level above where it stops,
      and keeps the mass. */
  lemma {:induction false} SettleFacts(levels: seq<Level>, lvl: nat, n: nat)
    requires n != 1 && lvl < |levels| && WellFormed(levels, n)
    requires forall j :: 0 <= j < |levels| && j != lvl ==> !IsFull(levels[j])
    requires forall j :: 0 <= j < lvl ==> IsEmpty(levels[j])
    requires n >= 2 ==> !IsEmpty(levels[lvl]) && !IsEmpty(levels[|levels| - 1])
    ensures var s := Settle(levels, lvl, n);
      && Settled(s, n)
      && lvl <= s.active <= |levels|
      && |s.levels| == (if s.active == |levels| then |levels| + 1 else |levels|)
      && (forall j :: s.active < j < |levels| ==> s.levels[j] == levels[j])
      && MassOf(s.levels, n) == MassOf(levels, n)
  {
    SettleShape(levels, lvl, n);
    SettleSettled(levels, lvl, n);
    SettleMass(levels, lvl, n);
  }

  /** Settling keeps the levels well formed and stops at an existing level. */
  lemma {:induction false} SettleWellFormed(levels: seq<Level>, lvl: nat, n: nat)
    requires n != 1 && lvl < |levels| && WellFormed(levels, n)
    ensures WellFormed(Settle(levels, lvl, n).levels, n)
    ensures Settle(levels, lvl, n).active < |Settle(levels, lvl, n).levels|
    decreases |levels| - lvl, if IsFull(levels[lvl]) then 2 else 0
  {
    if IsFull(levels[lvl]) {
      var next := Carry(levels, lvl, n);
      SettleWellFormed(next, lvl + 1, n);
      assert Settle(levels, lvl, n) == Settle(next, lvl + 1, n);
    }
  }

  /** A write keeps the levels well formed and stops at an existing level. */
  lemma {:induction false} WriteWellFormed(levels: seq<Level>, x: real, n: nat)
    requires n != 1 && WellFormed(levels, n)
    ensures WellFormed(Write(levels, x, n).levels, n)
    ensures Write(levels, x, n).active < |Write(levels, x, n).levels|
  {
    SettleWellFormed(Start(levels, x, n), 0, n);
  }

  /** Where settling stops: at or above lvl, with at most one level added and
      the levels above the stopping point as they were. */
  lemma {:induction false} SettleShape(levels: seq<Level>, lvl: nat, n: nat)
    requires n != 1 && lvl < |levels| && WellFormed(levels, n)
    requires forall j :: 0 <= j < |levels| && j != lvl ==> !IsFull(levels[j])
    ensures var s := Settle(levels, lvl, n);
      && lvl <= s.active <= |levels|
      && |s.levels| == (if s.active == |levels| then |levels| + 1 else |levels|)
      && (forall j :: s.active < j < |levels| ==> s.levels[j] == levels[j])
    decreases |levels| - lvl, if IsFull(levels[lvl]) then 2 else 0
  {
    if IsFull(levels[lvl]) {
      var next := Carry(levels, lvl, n);
      CarryFacts(levels, lvl, n);
      EmptyLevelFacts(n);
      SettleShape(next, lvl + 1, n);
      assert Settle(levels, lvl, n) == Settle(next, lvl + 1, n);
    }
  }

  /** Settling ends in a settled state. */
  lemma {:induction false} SettleSettled(levels: seq<Level>, lvl: nat, n: nat)
    requires n != 1 && lvl < |levels| && WellFormed(levels, n)
    requires forall j :: 0 <= j < |levels| && j != lvl ==> !IsFull(levels[j])
    requires forall j :: 0 <= j < lvl ==> IsEmpty(levels[j])
    requires n >= 2 ==> !IsEmpty(levels[lvl]) && !IsEmpty(levels[|levels| - 1])
    ensures Settled(Settle(levels, lvl, n), n)
    decreases |levels| - lvl, if IsFull(levels[lvl]) then 2 else 0
  {
    if IsFull(levels[lvl]) {
      var next := Carry(levels, lvl, n);
      CarryKeeps(levels, lvl, n);
      SettleSettled(next, lvl + 1, n);
      assert Settle(levels, lvl, n) == Settle(next, lvl + 1, n);
    } else {
      assert Quiet(levels, n);
    }
  }

  /** A carry from the lowest non-empty level keeps what settling needs: only
      the level above may be full, every level up to the carried one is empty,
      and the level above and the top level hold values. */
  lemma {:induction false} CarryKeeps(levels: seq<Level>, lvl: nat, n: nat)
    requires n != 1 && lvl < |levels| && WellFormed(levels, n) && IsFull(levels[lvl])
    requires forall j :: 0 <= j < |levels| && j != lvl ==> !IsFull(levels[j])
    requires forall j :: 0 <= j < lvl ==> IsEmpty(levels[j])
    requires n >= 2 ==> !IsEmpty(levels[|levels| - 1])
    ensures var next := Carry(levels, lvl, n);
      && (forall j :: 0 <= j < |next| && j != lvl + 1 ==> !IsFull(next[j]))
      && (forall j :: 0 <= j < lvl + 1 ==> IsEmpty(next[j]))
      && (n >= 2 ==> !IsEmpty(next[lvl + 1]) && !IsEmpty(next[|next| - 1]))
  {
    var next := Carry(levels, lvl, n);
    CarryFacts(levels, lvl, n);
    EmptyLevelFacts(n);
    forall j | 0 <= j < |next| && j != lvl + 1 ensures !IsFull(next[j]) && (j < lvl + 1 ==> IsEmpty(next[j])) {
      if j != lvl {
        assert next[j] == levels[j];
      }
    }
    if |next| - 1 != lvl + 1 {
      assert next[|next| - 1] == levels[|levels| - 1];
    }
  }

  /** Settling keeps the mass. */
  lemma {:induction false} SettleMass(levels: seq<Level>, lvl: nat, n: nat)
    requires n != 1 && lvl < |levels| && WellFormed(levels, n)
    requires forall j :: 0 <= j < |levels| && j != lvl ==> !IsFull(levels[j])
    ensures MassOf(Settle(levels, lvl, n).levels, n) == MassOf(levels, n)
    decreases |levels| - lvl, if IsFull(levels[lvl]) then 2 else 0
  {
    if IsFull(levels[lvl]) {
      var next := Carry(levels, lvl, n);
      CarryLeavesOthers(levels, lvl, n);
      CarryMass(levels, lvl, n);
      SettleMass(next, lvl + 1, n);
      assert Settle(levels, lvl, n) == Settle(next, lvl + 1, n);
    }
  }

  /** After a carry out of the only full level, no level but the one above it
      can be full. */
  lemma {:induction false} CarryLeavesOthers(levels: seq<Level>, lvl: nat, n: nat)
    requires n != 1 && lvl < |levels| && WellFormed(levels, n) && IsFull(levels[lvl])
    requires forall j :: 0 <= j < |levels| && j != lvl ==> !IsFull(levels[j])
    ensures forall j :: 0 <= j < |Carry(levels, lvl, n)| && j != lvl + 1 ==> !IsFull(Carry(levels, lvl, n)[j])
  {
    CarryFacts(levels, lvl, n);
    EmptyLevelFacts(n);
  }

  /** The first insert of a write into quiet levels: level 0 gains x (with at
      least two slots per level), every other level is as it was, and the mass
      grows by one. */
  lemma {:induction false} StartFacts(levels: seq<Level>, x: real, n: nat)
    requires Quiet(levels, n)
    ensures n >= 2 ==> !IsEmpty(Start(levels, x, n)[0])
    ensures forall j :: 0 < j < |levels| ==> Start(levels, x, n)[j] == levels[j]
    ensures n >= 2 ==> MassOf(Start(levels, x, n), n) == MassOf(levels, n) + 1
  {
    var start := Grow(levels, 0, n);
    EmptyLevelFacts(n);
    InsertAppends(start[0], x);
    FullShape(start[0]);
    var first := start[0 := Insert(start[0], x)];
    assert first == Start(levels, x, n);
    FullShape(first[0]);
    MassGrow(levels, 0, n);
    MassUpdate(start, 0, Insert(start[0], x), n);
  }

  /** index.js:179-190: a write into quiet levels settles, creates level 0 on
      the first call, adds at most one level, leaves the levels above where it
      stops as they were and (with at least two slots per level) adds one to
      the mass. */
  lemma {:induction false} WriteSettles(levels: seq<Level>, x: real, n: nat)
    requires n != 1 && Quiet(levels, n)
    ensures Settled(Write(levels, x, n), n)
    ensures |levels| <= |Write(levels, x, n).levels| <= |levels| + 1
    ensures |levels| == 0 ==> |Write(levels, x, n).levels| == 1
    ensures forall j :: Write(levels, x, n).active < j < |levels|
              ==> Write(levels, x, n).levels[j] == levels[j]
    ensures n >= 2 ==> MassOf(Write(levels, x, n).levels, n) == MassOf(levels, n) + 1
  {
    var first := Start(levels, x, n);
    StartFacts(levels, x, n);
    assert n >= 2 ==> !IsEmpty(first[|first| - 1]) by {
      if |first| - 1 != 0 {
        assert first[|first| - 1] == levels[|levels| - 1];
      }
    }
    SettleFacts(first, 0, n);
  }

  // ---------------------------------------------------------------------------
  // What getMedian reads

  /** c copies of w, as new Array(c).fill(w) builds them. */
  function Copies<T>(w: T, c: nat): (ws: seq<T>)
    ensures |ws| == c && forall k :: 0 <= k < c ==> ws[k] == w
  {
    seq(c, _ => w)
  }

  /** index.js:160-168: the values of all levels, level 0 first. */
  function AllValues(levels: seq<Level>): seq<real> {
    if levels == [] then []
    else AllValues(levels[..|levels| - 1]) + Values(levels[|levels| - 1])
  }

  /** index.js:160-168 with the weight index.js:165 means: a value at level j
      weighs n^j. */
  function AllWeights(levels: seq<Level>, n: nat): seq<real> {
    if levels == [] then []
    else
      var top := |levels| - 1;
      AllWeights(levels[..top], n) + Copies(Pow(n, top) as real, |Values(levels[top])|)
  }

  /** index.js:130-137: some level other than the top one holds a value, or the
      current level holds a second value. */
  predicate ShouldWeight(levels: seq<Level>, active: nat)
    requires active < |levels|
  {
    || (exists j :: 0 <= j < |levels| - 1 && !IsEmpty(levels[j]))
    || (|levels[active]| > 1 && levels[active][1].Some?)
  }

  /** One weight per value, none negative, adding up to the mass. */
  lemma {:induction false} AllWeightsFacts(levels: seq<Level>, n: nat)
    ensures |AllWeights(levels, n)| == |AllValues(levels)|
    ensures NonNegative(AllWeights(levels, n))
    ensures SumOf(AllWeights(levels, n), Id) == MassOf(levels, n) as real
  {
    if levels != [] {
      var top := |levels| - 1;
      var init := levels[..top];
      var c, p := |Values(levels[top])|, Pow(n, top);
      var ws, tail := AllWeights(init, n), Copies(p as real, c);
      assert AllWeights(levels, n) == ws + tail;
      assert AllValues(levels) == AllValues(init) + Values(levels[top]);
      assert MassOf(levels, n) == MassOf(init, n) + c * p;
      AllWeightsFacts(init, n);
      SumOfConcat(ws, tail, Id);
      CopiesMass(p, c);
      var mi, cp := MassOf(init, n), c * p;
      assert SumOf(tail, Id) == cp as real;
      assert SumOf(ws + tail, Id) == mi as real + cp as real;
      forall k | 0 <= k < |ws + tail| ensures (ws + tail)[k] >= 0.0 {
        if k < |ws| {
          assert (ws + tail)[k] == ws[k];
        } else {
          assert (ws + tail)[k] == tail[k - |ws|];
        }
      }
    }
  }

  /** c copies of the weight p add up to c * p. */
  lemma {:induction false} CopiesMass(p: nat, c: nat)
    ensures SumOf(Copies(p as real, c), Id) == (c * p) as real
  {
    if c > 0 {
      assert Copies(p as real, c)[1..] == Copies(p as real, c - 1);
      CopiesMass(p, c - 1);
      AddOne(c - 1, p);
    }
  }

  lemma {:induction false} PowPositive(n: nat, j: nat)
    requires n > 0
    ensures Pow(n, j) > 0
  {
    if j > 0 {
      PowPositive(n, j - 1);
    }
  }

  /** The values at level j are among all the values, and their weight is part
      of the mass. */
  lemma {:induction false} LevelCounted(levels: seq<Level>, j: nat, n: nat)
    requires j < |levels|
    ensures multiset(Values(levels[j])) <= multiset(AllValues(levels))
    ensures |AllValues(levels)| >= |Values(levels[j])|
    ensures MassOf(levels, n) >= |Values(levels[j])| * Pow(n, j)
  {
    LevelAmongAll(levels, j);
    LevelMass(levels, j, n);
  }

  lemma {:induction false} LevelMass(levels: seq<Level>, j: nat, n: nat)
    requires j < |levels|
    ensures |AllValues(levels)| >= |Values(levels[j])|
    ensures MassOf(levels, n) >= |Values(levels[j])| * Pow(n, j)
  {
    var top := |levels| - 1;
    if j < top {
      LevelMass(levels[..top], j, n);
    }
  }

  lemma {:induction false} LevelAmongAll(levels: seq<Level>, j: nat)
    requires j < |levels|
    ensures multiset(Values(levels[j])) <= multiset(AllValues(levels))
  {
    var top := |levels| - 1;
    var init := levels[..top];
    assert AllValues(levels) == AllValues(init) + Values(levels[top]);
    if j < top {
      assert init[j] == levels[j];
      LevelAmongAll(init, j);
    }
  }

  /** Every weight the levels carry is a whole number (a power of n). */
  lemma {:induction false} AllWeightsWhole(levels: seq<Level>, n: nat)
    ensures forall k :: 0 <= k < |AllWeights(levels, n)| ==> Whole(AllWeights(levels, n)[k])
  {
    if levels != [] {
      var top := |levels| - 1;
      var ws := AllWeights(levels[..top], n);
      var tail := Copies(Pow(n, top) as real, |Values(levels[top])|);
      assert AllWeights(levels, n) == ws + tail;
      AllWeightsWhole(levels[..top], n);
      forall k | 0 <= k < |ws + tail| ensures Whole((ws + tail)[k]) {
        if k < |ws| {
          assert (ws + tail)[k] == ws[k];
        } else {
          assert (ws + tail)[k] == Pow(n, top) as real;
        }
      }
    }
  }

  /** On the weighted path the rounded tie test of index.js:109 and the exact one
      give the same weighted median, because every weight is whole. */
  lemma {:induction false} WeightedPathRoundingHarmless(levels: seq<Level>, active: nat, n: nat)
    requires WellFormed(levels, n) && active < |levels| && ShouldWeight(levels, active)
    ensures WeightedInput(AllValues(levels), AllWeights(levels, n))
    ensures WeightedMedianRoundedOf(AllValues(levels), AllWeights(levels, n))
         == WeightedMedianOf(AllValues(levels), AllWeights(levels, n))
  {
    WeightedPathInput(levels, active, n);
    AllWeightsWhole(levels, n);
    RoundedAgreesOnWholeWeights(AllValues(levels), AllWeights(levels, n));
  }

  /** The weighted path of index.js:159-169 is only taken when there is a value,
      so the weighted median is defined there. */
  lemma {:induction false} WeightedPathInput(levels: seq<Level>, active: nat, n: nat)
    requires WellFormed(levels, n) && active < |levels| && ShouldWeight(levels, active)
    ensures WeightedInput(AllValues(levels), AllWeights(levels, n))
  {
    var j :| 0 <= j < |levels| && !IsEmpty(levels[j]);
    FullShape(levels[j]);
    PowPositive(n, j);
    LevelMass(levels, j, n);
    AllWeightsFacts(levels, n);
    AddOne(|Values(levels[j])| - 1, Pow(n, j));
  }

  /** index.js:154-173: none before the first write; the weighted median of all
      values when ShouldWeight holds; otherwise slot 0 of the current level. */
  function Estimate(s: State, n: nat): Option<real>
    requires WellFormed(s.levels, n) && (|s.levels| > 0 ==> s.active < |s.levels|)
  {
    if |s.levels| == 0 then None
    else if ShouldWeight(s.levels, s.active) then
      WeightedPathInput(s.levels, s.active, n);
      Some(WeightedMedianOf(AllValues(s.levels), AllWeights(s.levels, n)))
    else if |s.levels[s.active]| > 0 then s.levels[s.active][0]
    else None
  }

  /** Levels that are all empty contribute no value and no weight. */
  lemma {:induction false} AllOfEmpty(levels: seq<Level>, n: nat)
    requires WellFormed(levels, n) && forall j :: 0 <= j < |levels| ==> IsEmpty(levels[j])
    ensures AllValues(levels) == [] && AllWeights(levels, n) == []
  {
    if levels != [] {
      var top := |levels| - 1;
      FullShape(levels[top]);
      AllOfEmpty(levels[..top], n);
    }
  }

  /** After any write (with at least two slots per level) getMedian is the
      weighted median of all the values held, each weighing bufferSize^level:
      the fast path of index.js:171 is taken only when a single value is held,
      and the weighted median of a single value is that value. */
  lemma {:induction false} EstimateIsWeightedMedian(s: State, n: nat)
    requires n >= 2 && Settled(s, n)
    ensures WeightedInput(AllValues(s.levels), AllWeights(s.levels, n))
    ensures Estimate(s, n) == Some(WeightedMedianOf(AllValues(s.levels), AllWeights(s.levels, n)))
  {
    var levels, active := s.levels, s.active;
    if ShouldWeight(levels, active) {
      WeightedPathInput(levels, active, n);
    } else {
      var top := |levels| - 1;
      assert active == top;
      var l := levels[top];
      PrefixShape(l);
      assert FirstFree(l) == 1;
      var v := l[0].value;
      assert Values(l) == [v];
      AllOfEmpty(levels[..top], n);
      assert AllValues(levels) == [v];
      assert AllWeights(levels, n) == [Pow(n, top) as real];
      PowPositive(n, top);
      SingleWeighted(v, Pow(n, top) as real);
    }
  }

  /** getMedian gives none exactly before the first write (index.js:155-157,
      with at least two slots per level). */
  lemma {:induction false} EstimateNoneIff(s: State, n: nat)
    requires n >= 2 && (s == State([], 0) || Settled(s, n))
    ensures Estimate(s, n).None? <==> |s.levels| == 0
  {
    if |s.levels| > 0 {
      EstimateIsWeightedMedian(s, n);
    }
  }

  /** While everything sits in level 0 the estimate is the exact median of
      level 0: every weight there is one. */
  lemma {:induction false} SingleLevelExact(s: State, n: nat)
    requires n >= 2 && Settled(s, n) && |s.levels| == 1
    ensures |Values(s.levels[0])| > 0
    ensures Estimate(s, n) == Some(ExactMedian(Values(s.levels[0])))
  {
    var l := s.levels[0];
    FullShape(l);
    EstimateIsWeightedMedian(s, n);
    assert s.levels[..0] == [];
    assert AllValues(s.levels) == Values(l);
    assert AllWeights(s.levels, n) == Ones(|Values(l)|);
    UniformWeights(Values(l));
  }
}
