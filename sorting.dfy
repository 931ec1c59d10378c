/** Python's `sorted(xs, key=k)`: a stable sort, modelled as an insertion sort
    over a real-valued key. A descending sort that keeps ties in their original
    order (`reverse=True`) is the same sort over the negated key. */
module Sorting {
  import opened Seqs

  /** Keys never decrease along `s`. */
  predicate SortedBy<T>(s: seq<T>, key: T -> real)
  {
    forall i, j :: 0 <= i < j < |s| ==> key(s[i]) <= key(s[j])
  }

  /** The elements of `s` whose key is `v`, in their order in `s`. */
  function WithKey<T>(s: seq<T>, key: T -> real, v: real): seq<T>
  {
    if s == [] then []
    else (if key(s[0]) == v then [s[0]] else []) + WithKey(s[1..], key, v)
  }

  /** Places `x` after every element of `s` whose key is not above its own. */
  function Insert<T>(x: T, s: seq<T>, key: T -> real): (r: seq<T>)
    ensures |r| == |s| + 1
  {
    if s == [] then [x]
    else if key(x) < key(s[0]) then [x] + s
    else [s[0]] + Insert(x, s[1..], key)
  }

  /** Inserts the elements of `s` one by one, from first to last. */
  function InsertionSort<T>(s: seq<T>, key: T -> real): (r: seq<T>)
    ensures |r| == |s|
  {
    if s == [] then []
    else Insert(s[|s| - 1], InsertionSort(s[..|s| - 1], key), key)
  }

  lemma {:induction false} WithKeyAppend<T>(a: seq<T>, b: seq<T>, key: T -> real, v: real)
    ensures WithKey(a + b, key, v) == WithKey(a, key, v) + WithKey(b, key, v)
  {
    if a == [] {
      assert a + b == b;
    } else {
      var head := if key(a[0]) == v then [a[0]] else [];
      assert (a + b)[0] == a[0];
      assert (a + b)[1..] == a[1..] + b;
      WithKeyAppend(a[1..], b, key, v);
      assert WithKey(a + b, key, v) == head + WithKey(a[1..] + b, key, v);
      assert WithKey(a, key, v) == head + WithKey(a[1..], key, v);
    }
  }

  lemma {:induction false} WithKeyAbove<T>(s: seq<T>, key: T -> real, v: real)
    requires forall i :: 0 <= i < |s| ==> v < key(s[i])
    ensures WithKey(s, key, v) == []
  {
    if s != [] {
      WithKeyAbove(s[1..], key, v);
    }
  }

  lemma {:induction false} InsertPermutes<T>(x: T, s: seq<T>, key: T -> real)
    ensures multiset(Insert(x, s, key)) == multiset(s) + multiset{x}
  {
    if s != [] && key(s[0]) <= key(x) {
      InsertPermutes(x, s[1..], key);
      assert s == [s[0]] + s[1..];
    }
  }

  lemma {:induction false} InsertSorted<T>(x: T, s: seq<T>, key: T -> real)
    requires SortedBy(s, key)
    ensures SortedBy(Insert(x, s, key), key)
  {
    if s != [] && key(s[0]) <= key(x) {
      InsertSorted(x, s[1..], key);
      var r := Insert(x, s[1..], key);
      InsertPermutes(x, s[1..], key);
      forall j | 0 <= j < |r|
        ensures key(s[0]) <= key(r[j])
      {
        assert r[j] in multiset(r);
        assert r[j] == x || r[j] in s[1..];
      }
    }
  }

  lemma {:induction false} InsertStable<T>(x: T, s: seq<T>, key: T -> real, v: real)
    requires SortedBy(s, key)
    ensures WithKey(Insert(x, s, key), key, v)
         == WithKey(s, key, v) + (if key(x) == v then [x] else [])
  {
    if s == [] {
      assert WithKey([x], key, v) == (if key(x) == v then [x] else []) + WithKey([], key, v);
    } else if key(x) < key(s[0]) {
      assert Insert(x, s, key) == [x] + s;
      assert ([x] + s)[1..] == s;
      assert WithKey([x] + s, key, v) == (if key(x) == v then [x] else []) + WithKey(s, key, v);
      if key(x) == v {
        assert forall i :: 0 <= i < |s| ==> key(s[0]) <= key(s[i]);
        WithKeyAbove(s, key, v);
      }
    } else {
      var r := Insert(x, s[1..], key);
      assert Insert(x, s, key) == [s[0]] + r;
      assert ([s[0]] + r)[1..] == r;
      InsertStable(x, s[1..], key, v);
      assert WithKey([s[0]] + r, key, v) == (if key(s[0]) == v then [s[0]] else []) + WithKey(r, key, v);
      assert WithKey(s, key, v) == (if key(s[0]) == v then [s[0]] else []) + WithKey(s[1..], key, v);
    }
  }

  /** The sort returns the same elements, as many times each. */
  lemma {:induction false} SortPermutes<T>(s: seq<T>, key: T -> real)
    ensures multiset(InsertionSort(s, key)) == multiset(s)
  {
    if s != [] {
      SortPermutes(s[..|s| - 1], key);
      InsertPermutes(s[|s| - 1], InsertionSort(s[..|s| - 1], key), key);
      assert s == s[..|s| - 1] + [s[|s| - 1]];
    }
  }

  /** The sort returns its elements in non-decreasing key order. */
  lemma {:induction false} SortSorted<T>(s: seq<T>, key: T -> real)
    ensures SortedBy(InsertionSort(s, key), key)
  {
    if s != [] {
      SortSorted(s[..|s| - 1], key);
      InsertSorted(s[|s| - 1], InsertionSort(s[..|s| - 1], key), key);
    }
  }

  /** Stability: the elements sharing any one key keep their relative order. */
  lemma {:induction false} SortStable<T>(s: seq<T>, key: T -> real, v: real)
    ensures WithKey(InsertionSort(s, key), key, v) == WithKey(s, key, v)
  {
    if s != [] {
      var t, x := s[..|s| - 1], s[|s| - 1];
      assert s == t + [x];
      SortStable(t, key, v);
      SortSorted(t, key);
      InsertStable(x, InsertionSort(t, key), key, v);
      WithKeyAppend(t, [x], key, v);
      assert WithKey([x], key, v) == (if key(x) == v then [x] else []) + WithKey([x][1..], key, v);
    }
  }

  /** Length and membership, read off the permutation. */
  lemma SortSameElements<T>(s: seq<T>, key: T -> real)
    ensures |InsertionSort(s, key)| == |s|
    ensures forall x :: x in InsertionSort(s, key) <==> x in s
  {
    SortPermutes(s, key);
    var r := InsertionSort(s, key);
    assert |r| == |multiset(r)| == |multiset(s)| == |s|;
    forall x ensures x in r <==> x in s {
      assert x in r <==> x in multiset(r);
      assert x in s <==> x in multiset(s);
    }
  }

  /** The first `k` elements after sorting, as `sorted(s, key=...)[:k]`. */
  function Top<T>(s: seq<T>, key: T -> real, k: nat): (r: seq<T>)
  {
    InsertionSort(s, key)[..if k <= |s| then k else |s|]
  }

  /** The first `k` after a stable sort are min(k, |s|) elements of `s` in key
      order, no left-out element has a smaller key than a kept one, and equal
      keys stay in their order in `s`. */
  lemma TopIsBest<T>(s: seq<T>, key: T -> real, k: nat)
    ensures |Top(s, key, k)| == if k <= |s| then k else |s|
    ensures SortedBy(Top(s, key, k), key)
    ensures forall i :: 0 <= i < |Top(s, key, k)| ==> Top(s, key, k)[i] in s
    ensures forall x, i :: (x in s && x !in Top(s, key, k) && 0 <= i < |Top(s, key, k)|)
                             ==> key(Top(s, key, k)[i]) <= key(x)
    ensures forall v :: WithKey(InsertionSort(s, key), key, v) == WithKey(s, key, v)
  {
    var sorted := InsertionSort(s, key);
    var top := Top(s, key, k);
    SortSameElements(s, key);
    SortSorted(s, key);
    forall v ensures WithKey(sorted, key, v) == WithKey(s, key, v) {
      SortStable(s, key, v);
    }
    forall i | 0 <= i < |top| ensures top[i] in s {
      assert top[i] == sorted[i];
      SortPermutes(s, key);
      assert sorted[i] in multiset(sorted);
    }
    forall x, i | x in s && x !in top && 0 <= i < |top|
      ensures key(top[i]) <= key(x)
    {
      assert x in sorted;
      var m :| 0 <= m < |sorted| && sorted[m] == x;
      assert top[i] == sorted[i];
    }
  }

  /** The first `k` of a sequence without repetitions repeat nothing. */
  lemma TopDistinct<T>(s: seq<T>, key: T -> real, k: nat)
    requires Distinct(s)
    ensures Distinct(Top(s, key, k))
  {
    var sorted := InsertionSort(s, key);
    SortPermutes(s, key);
    DistinctPermutation(s, sorted);
  }
}
