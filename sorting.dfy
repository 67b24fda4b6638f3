/** The stable sort the estimator relies on (a sort by a numeric key that keeps
    equal keys in their original order, as Array.prototype.sort does), and sums
    over sequences, which sorting leaves unchanged. */
module Sorting {

  /** s is in ascending order of key. */
  ghost predicate SortedBy<T>(s: seq<T>, key: T -> real) {
    forall a, b :: 0 <= a < b < |s| ==> key(s[a]) <= key(s[b])
  }

  /** Inserts x into s just before the first element whose key is strictly greater. */
  function InsertBy<T>(x: T, s: seq<T>, key: T -> real): (r: seq<T>)
    ensures |r| == |s| + 1
  {
    if s == [] then [x]
    else if key(x) < key(s[0]) then [x] + s
    else [s[0]] + InsertBy(x, s[1..], key)
  }

  /** Sorts s by key: inserts the elements one by one, the last one last, so that
      elements with equal keys keep their order. */
  function SortBy<T>(s: seq<T>, key: T -> real): (r: seq<T>)
    ensures |r| == |s|
  {
    if s == [] then [] else InsertBy(s[|s| - 1], SortBy(s[..|s| - 1], key), key)
  }

  lemma {:induction false} InsertByPermutes<T>(x: T, s: seq<T>, key: T -> real)
    ensures multiset(InsertBy(x, s, key)) == multiset(s) + multiset{x}
  {
    if s != [] && key(x) >= key(s[0]) {
      InsertByPermutes(x, s[1..], key);
      assert s == [s[0]] + s[1..];
    }
  }

  lemma {:induction false} InsertBySorted<T>(x: T, s: seq<T>, key: T -> real)
    requires SortedBy(s, key)
    ensures SortedBy(InsertBy(x, s, key), key)
  {
    if s != [] && key(x) >= key(s[0]) {
      var rest := InsertBy(x, s[1..], key);
      SortedTail(s, key);
      InsertBySorted(x, s[1..], key);
      InsertByPermutes(x, s[1..], key);
      forall j | 0 <= j < |rest| ensures key(s[0]) <= key(rest[j]) {
        assert rest[j] in multiset(rest);
        assert rest[j] == x || rest[j] in multiset(s[1..]);
      }
    }
  }

  /** Sorting only reorders. */
  lemma {:induction false} SortByPermutes<T>(s: seq<T>, key: T -> real)
    ensures multiset(SortBy(s, key)) == multiset(s)
  {
    if s != [] {
      assert s == s[..|s| - 1] + [s[|s| - 1]];
      SortByPermutes(s[..|s| - 1], key);
      InsertByPermutes(s[|s| - 1], SortBy(s[..|s| - 1], key), key);
    }
  }

  /** Sorting yields ascending keys. */
  lemma {:induction false} SortBySorted<T>(s: seq<T>, key: T -> real)
    ensures SortedBy(SortBy(s, key), key)
  {
    if s != [] {
      SortBySorted(s[..|s| - 1], key);
      InsertBySorted(s[|s| - 1], SortBy(s[..|s| - 1], key), key);
    }
  }

  /** The elements of s whose key is v, in their order in s. */
  function KeyClass<T>(s: seq<T>, key: T -> real, v: real): seq<T> {
    if s == [] then []
    else (if key(s[0]) == v then [s[0]] else []) + KeyClass(s[1..], key, v)
  }

  lemma {:induction false} KeyClassConcat<T>(a: seq<T>, b: seq<T>, key: T -> real, v: real)
    ensures KeyClass(a + b, key, v) == KeyClass(a, key, v) + KeyClass(b, key, v)
  {
    if a == [] {
      assert a + b == b;
    } else {
      var head := if key(a[0]) == v then [a[0]] else [];
      assert (a + b)[0] == a[0];
      assert (a + b)[1..] == a[1..] + b;
      assert KeyClass(a + b, key, v) == head + KeyClass(a[1..] + b, key, v);
      KeyClassConcat(a[1..], b, key, v);
      assert KeyClass(a, key, v) == head + KeyClass(a[1..], key, v);
    }
  }

  lemma {:induction false} KeyClassAllGreater<T>(s: seq<T>, key: T -> real, v: real)
    requires forall j :: 0 <= j < |s| ==> key(s[j]) > v
    ensures KeyClass(s, key, v) == []
  {
    if s != [] {
      KeyClassAllGreater(s[1..], key, v);
    }
  }

  lemma {:induction false} KeyClassInsert<T>(x: T, s: seq<T>, key: T -> real, v: real)
    requires SortedBy(s, key)
    ensures KeyClass(InsertBy(x, s, key), key, v)
         == KeyClass(s, key, v) + (if key(x) == v then [x] else [])
  {
    var tail := if key(x) == v then [x] else [];
    if s == [] {
      assert [x][1..] == [];
    } else if key(x) < key(s[0]) {
      assert ([x] + s)[1..] == s;
      if key(x) == v {
        KeyClassAllGreater(s, key, v);
        assert KeyClass(s, key, v) + tail == [x];
      }
    } else {
      var rest := InsertBy(x, s[1..], key);
      var head := if key(s[0]) == v then [s[0]] else [];
      assert ([s[0]] + rest)[1..] == rest;
      assert KeyClass([s[0]] + rest, key, v) == head + KeyClass(rest, key, v);
      SortedTail(s, key);
      KeyClassInsert(x, s[1..], key, v);
      assert KeyClass(s, key, v) == head + KeyClass(s[1..], key, v);
      assert head + (KeyClass(s[1..], key, v) + tail) == (head + KeyClass(s[1..], key, v)) + tail;
    }
  }

  lemma {:induction false} SortedTail<T>(s: seq<T>, key: T -> real)
    requires s != [] && SortedBy(s, key)
    ensures SortedBy(s[1..], key)
  {
    forall a, b | 0 <= a < b < |s| - 1 ensures key(s[1..][a]) <= key(s[1..][b]) {
      assert s[1..][a] == s[a + 1] && s[1..][b] == s[b + 1];
    }
  }

  /** Sorting is stable: the elements of each key keep their relative order. */
  lemma {:induction false} SortByStable<T>(s: seq<T>, key: T -> real, v: real)
    ensures KeyClass(SortBy(s, key), key, v) == KeyClass(s, key, v)
  {
    if s != [] {
      var init, last := s[..|s| - 1], s[|s| - 1];
      assert s == init + [last];
      SortByStable(init, key, v);
      SortBySorted(init, key);
      KeyClassInsert(last, SortBy(init, key), key, v);
      KeyClassConcat(init, [last], key, v);
      assert KeyClass([last], key, v) == (if key(last) == v then [last] else []) by {
        assert [last][1..] == [];
      }
    }
  }

  /** Sorting a prefix one element longer inserts that element into the sorted prefix. */
  lemma {:induction false} SortByStep<T>(s: seq<T>, key: T -> real, i: nat)
    requires i < |s|
    ensures SortBy(s[..i + 1], key) == InsertBy(s[i], SortBy(s[..i], key), key)
  {
    assert s[..i + 1][..i] == s[..i];
  }

  /** An element whose key is at least every key of s goes at the end. */
  lemma {:induction false} InsertByLast<T>(x: T, s: seq<T>, key: T -> real)
    requires forall j :: 0 <= j < |s| ==> key(s[j]) <= key(x)
    ensures InsertBy(x, s, key) == s + [x]
  {
    if s != [] {
      InsertByLast(x, s[1..], key);
      assert s == [s[0]] + s[1..];
    }
  }

  /** A sequence already in order is left exactly as it is. */
  lemma {:induction false} SortByIdentity<T>(s: seq<T>, key: T -> real)
    requires SortedBy(s, key)
    ensures SortBy(s, key) == s
  {
    if s != [] {
      var init := s[..|s| - 1];
      assert SortedBy(init, key);
      SortByIdentity(init, key);
      InsertByLast(s[|s| - 1], init, key);
      assert init + [s[|s| - 1]] == s;
    }
  }

  /** Sorting twice is sorting once. */
  lemma {:induction false} SortByIdempotent<T>(s: seq<T>, key: T -> real)
    ensures SortBy(SortBy(s, key), key) == SortBy(s, key)
  {
    SortBySorted(s, key);
    SortByIdentity(SortBy(s, key), key);
  }

  /** The sum of f over the elements of s. */
  function SumOf<T>(s: seq<T>, f: T -> real): real {
    if s == [] then 0.0 else f(s[0]) + SumOf(s[1..], f)
  }

  lemma {:induction false} SumOfConcat<T>(a: seq<T>, b: seq<T>, f: T -> real)
    ensures SumOf(a + b, f) == SumOf(a, f) + SumOf(b, f)
  {
    if a == [] {
      assert a + b == b;
    } else {
      assert (a + b)[1..] == a[1..] + b;
      SumOfConcat(a[1..], b, f);
    }
  }

  lemma {:induction false} SumOfInsert<T>(x: T, s: seq<T>, key: T -> real, f: T -> real)
    ensures SumOf(InsertBy(x, s, key), f) == SumOf(s, f) + f(x)
  {
    if s == [] {
      assert [x][1..] == [];
    } else if key(x) < key(s[0]) {
      assert ([x] + s)[1..] == s;
    } else {
      var rest := InsertBy(x, s[1..], key);
      assert ([s[0]] + rest)[1..] == rest;
      SumOfInsert(x, s[1..], key, f);
    }
  }

  /** Sorting does not change a sum. */
  lemma {:induction false} SumOfSort<T>(s: seq<T>, key: T -> real, f: T -> real)
    ensures SumOf(SortBy(s, key), f) == SumOf(s, f)
  {
    if s != [] {
      var init, last := s[..|s| - 1], s[|s| - 1];
      assert s == init + [last];
      SumOfSort(init, key, f);
      SumOfInsert(last, SortBy(init, key), key, f);
      SumOfConcat(init, [last], f);
      assert SumOf([last], f) == f(last) by {
        assert [last][1..] == [];
      }
    }
  }

  lemma {:induction false} SumOfMono<T>(s: seq<T>, f: T -> real, g: T -> real)
    requires forall j :: 0 <= j < |s| ==> f(s[j]) <= g(s[j])
    ensures SumOf(s, f) <= SumOf(s, g)
  {
    if s != [] {
      SumOfMono(s[1..], f, g);
    }
  }

  lemma {:induction false} SumOfZero<T>(s: seq<T>, f: T -> real)
    requires forall j :: 0 <= j < |s| ==> f(s[j]) == 0.0
    ensures SumOf(s, f) == 0.0
  {
    if s != [] {
      SumOfZero(s[1..], f);
    }
  }

  lemma {:induction false} SumOfNonNegative<T>(s: seq<T>, f: T -> real)
    requires forall j :: 0 <= j < |s| ==> f(s[j]) >= 0.0
    ensures SumOf(s, f) >= 0.0
  {
    if s != [] {
      SumOfNonNegative(s[1..], f);
    }
  }

  /** A sum of ones counts the elements. */
  lemma {:induction false} SumOfOnes<T>(s: seq<T>, f: T -> real)
    requires forall j :: 0 <= j < |s| ==> f(s[j]) == 1.0
    ensures SumOf(s, f) == |s| as real
  {
    if s != [] {
      SumOfOnes(s[1..], f);
    }
  }

  /** When f vanishes from position lo on and is at most g before it, the sum of f
      is at most the sum of g over the first lo elements. */
  lemma {:induction false} SumOfPrefixBound<T>(s: seq<T>, f: T -> real, g: T -> real, lo: nat)
    requires lo <= |s|
    requires forall j :: lo <= j < |s| ==> f(s[j]) == 0.0
    requires forall j :: 0 <= j < lo ==> f(s[j]) <= g(s[j])
    ensures SumOf(s, f) <= SumOf(s[..lo], g)
  {
    assert s == s[..lo] + s[lo..];
    SumOfConcat(s[..lo], s[lo..], f);
    SumOfZero(s[lo..], f);
    SumOfMono(s[..lo], f, g);
  }

  /** When f vanishes before position hi and is at most g from it on, the sum of f
      is at most the sum of g over the elements from hi on. */
  lemma {:induction false} SumOfSuffixBound<T>(s: seq<T>, f: T -> real, g: T -> real, hi: nat)
    requires hi <= |s|
    requires forall j :: 0 <= j < hi ==> f(s[j]) == 0.0
    requires forall j :: hi <= j < |s| ==> f(s[j]) <= g(s[j])
    ensures SumOf(s, f) <= SumOf(s[hi..], g)
  {
    assert s == s[..hi] + s[hi..];
    SumOfConcat(s[..hi], s[hi..], f);
    SumOfZero(s[..hi], f);
    SumOfMono(s[hi..], f, g);
  }
}
