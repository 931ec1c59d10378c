/** Sequence facts shared by the validator and the aggregations: first-seen
    de-duplication (the key order of an insertion-ordered dictionary) and
    occurrence counts (the values of a counter). */
module Seqs {

  /** No value occurs twice in `s`. */
  predicate Distinct<T(==)>(s: seq<T>)
  {
    forall i, j :: 0 <= i < j < |s| ==> s[i] != s[j]
  }

  function Min(a: int, b: int): int
  {
    if a <= b then a else b
  }

  /** The distinct values of `s`, each once, in the order of their first
      occurrence: the keys of a dictionary filled by walking `s`. */
  function Dedup<T(==)>(s: seq<T>): (r: seq<T>)
    ensures Distinct(r)
    ensures |r| <= |s|
  {
    if s == [] then []
    else
      var d := Dedup(s[..|s| - 1]);
      if s[|s| - 1] in d then d else d + [s[|s| - 1]]
  }

  /** Dedup drops repetitions and nothing else. */
  lemma {:induction false} DedupMembers<T>(s: seq<T>)
    ensures forall x :: x in Dedup(s) <==> x in s
  {
    if s != [] {
      DedupMembers(s[..|s| - 1]);
      assert s == s[..|s| - 1] + [s[|s| - 1]];
    }
  }

  lemma DedupContains<T>(s: seq<T>, x: T)
    ensures x in Dedup(s) <==> x in s
  {
    DedupMembers(s);
  }

  /** Dedup of a sequence extended by one value, in the shape a loop uses. */
  lemma DedupSnoc<T>(s: seq<T>, x: T)
    ensures Dedup(s + [x]) == if x in Dedup(s) then Dedup(s) else Dedup(s) + [x]
  {
    assert (s + [x])[..|s|] == s;
  }

  /** How many times `x` occurs in `s`. */
  function Count<T(==)>(s: seq<T>, x: T): (n: nat)
    ensures n <= |s|
  {
    if s == [] then 0
    else Count(s[..|s| - 1], x) + (if s[|s| - 1] == x then 1 else 0)
  }

  /** A value occurs at least once exactly when it is in the sequence. */
  lemma {:induction false} CountPositive<T>(s: seq<T>, x: T)
    ensures Count(s, x) > 0 <==> x in s
  {
    if s != [] {
      CountPositive(s[..|s| - 1], x);
      assert s == s[..|s| - 1] + [s[|s| - 1]];
    }
  }

  lemma CountSnoc<T>(s: seq<T>, y: T, x: T)
    ensures Count(s + [y], x) == Count(s, x) + (if y == x then 1 else 0)
  {
    assert (s + [y])[..|s|] == s;
  }

  /** The sum, over `keys`, of the occurrence counts of each key in `s`. */
  function SumCounts<T(==)>(keys: seq<T>, s: seq<T>): nat
  {
    if keys == [] then 0
    else SumCounts(keys[..|keys| - 1], s) + Count(s, keys[|keys| - 1])
  }

  /** Extending `s` by `x` raises the sum over distinct `keys` by one exactly
      when `x` is one of the keys. */
  lemma {:induction false} SumCountsSnoc<T>(keys: seq<T>, s: seq<T>, x: T)
    requires Distinct(keys)
    ensures SumCounts(keys, s + [x]) == SumCounts(keys, s) + (if x in keys then 1 else 0)
  {
    if keys != [] {
      var ks, k := keys[..|keys| - 1], keys[|keys| - 1];
      assert keys == ks + [k];
      assert Distinct(ks);
      SumCountsSnoc(ks, s, x);
      CountSnoc(s, x, k);
      assert x in keys <==> x in ks || x == k;
      assert x == k ==> x !in ks;
    }
  }

  /** The counts of the distinct values of `s` add up to the length of `s`. */
  lemma {:induction false} SumCountsOfDedup<T>(s: seq<T>)
    ensures SumCounts(Dedup(s), s) == |s|
  {
    if s != [] {
      var t, x := s[..|s| - 1], s[|s| - 1];
      assert s == t + [x];
      SumCountsOfDedup(t);
      DedupMembers(t);
      var d := Dedup(t);
      SumCountsSnoc(d, t, x);
      DedupSnoc(t, x);
      if x !in d {
        CountPositive(t, x);
        assert (d + [x])[..|d|] == d;
        CountSnoc(t, x, x);
        assert SumCounts(d + [x], s) == SumCounts(d, s) + Count(s, x);
      }
    }
  }

  /** Dropping the last element of a sequence without repetitions leaves one,
      which does not hold that element. */
  lemma DistinctSnoc<T>(s: seq<T>, x: T)
    requires Distinct(s + [x])
    ensures Distinct(s) && x !in s
  {
    forall i | 0 <= i < |s| ensures s[i] != x {
      assert (s + [x])[i] == s[i] && (s + [x])[|s|] == x;
    }
    forall i, j | 0 <= i < j < |s| ensures s[i] != s[j] {
      assert (s + [x])[i] == s[i] && (s + [x])[j] == s[j];
    }
  }

  /** A sequence without repetitions has as many elements as its set. */
  lemma {:induction false} DistinctCard<T>(s: seq<T>)
    requires Distinct(s)
    ensures |set x | x in s| == |s|
  {
    if s != [] {
      var t, x := s[..|s| - 1], s[|s| - 1];
      assert s == t + [x];
      DistinctCard(t);
      assert (set y | y in s) == (set y | y in t) + {x};
      assert x !in (set y | y in t);
    }
  }

  /** The number of distinct values of `s` is the size of its set. */
  lemma DedupCard<T>(s: seq<T>)
    ensures |Dedup(s)| == |set x | x in s|
  {
    DistinctCard(Dedup(s));
    DedupMembers(s);
    var a, b := set x | x in Dedup(s), set x | x in s;
    assert a <= b by {
      forall x | x in a ensures x in b { DedupContains(s, x); }
    }
    assert b <= a by {
      forall x | x in b ensures x in a { DedupContains(s, x); }
    }
    assert a == b;
  }

  /** A value occurs at most once in a sequence without repetitions. */
  lemma {:induction false} DistinctOnce<T>(s: seq<T>, x: T)
    requires Distinct(s)
    ensures multiset(s)[x] <= 1
  {
    if s != [] {
      var t, y := s[..|s| - 1], s[|s| - 1];
      assert s == t + [y];
      assert Distinct(t);
      DistinctOnce(t, x);
      if y == x {
        assert x !in t;
      }
    }
  }

  /** A rearrangement of a sequence without repetitions has none either. */
  lemma DistinctPermutation<T>(a: seq<T>, b: seq<T>)
    requires multiset(a) == multiset(b)
    requires Distinct(a)
    ensures Distinct(b)
  {
    forall i, j | 0 <= i < j < |b|
      ensures b[i] != b[j]
    {
      var x := b[j];
      assert b == b[..j] + [x] + b[j + 1..];
      DistinctOnce(a, x);
      assert multiset(b[..j])[x] == 0;
      assert b[i] in b[..j];
    }
  }

  /** The prefix one longer is the prefix extended by the next element. */
  lemma PrefixSnoc<T>(s: seq<T>, m: nat)
    requires m < |s|
    ensures s[..m + 1] == s[..m] + [s[m]]
  {
  }
}
