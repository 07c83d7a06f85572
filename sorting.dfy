/** `Array.prototype.sort` with a numeric comparator `(a, b) => key(a) - key(b)`.
    Since ECMAScript 2019 that sort is required to be stable, so it is
    modelled here as a stable insertion sort, with the three facts that
    characterise a stable sort: the result is a permutation of the input, it
    is ordered by the key, and elements with equal keys keep their input
    order. A descending sort (`key(b) - key(a)`) is the ascending sort by the
    negated key. */
module StableSort {
  import opened Seqs

  /** Non-decreasing by `key`. */
  ghost predicate SortedBy<T>(s: seq<T>, key: T -> int)
  {
    forall i, j :: 0 <= i < j < |s| ==> key(s[i]) <= key(s[j])
  }

  /** The elements of `s` whose key is `k`, in their order in `s`. */
  function TiesOf<T>(s: seq<T>, key: T -> int, k: int): seq<T>
  {
    Filter(s, x => key(x) == k)
  }

  /** Puts `x` in front of the first element whose key is not smaller. */
  function Insert<T>(x: T, s: seq<T>, key: T -> int): seq<T>
  {
    if s == [] || key(x) <= key(s[0]) then [x] + s
    else [s[0]] + Insert(x, s[1..], key)
  }

  function SortBy<T>(s: seq<T>, key: T -> int): seq<T>
  {
    if s == [] then [] else Insert(s[0], SortBy(s[1..], key), key)
  }

  lemma {:induction false} InsertPermutation<T>(x: T, s: seq<T>, key: T -> int)
    ensures multiset(Insert(x, s, key)) == multiset(s) + multiset{x}
  {
    if s != [] && key(x) > key(s[0]) {
      InsertPermutation(x, s[1..], key);
      assert s == [s[0]] + s[1..];
    }
  }

  lemma {:induction false} InsertSorted<T>(x: T, s: seq<T>, key: T -> int)
    requires SortedBy(s, key)
    ensures SortedBy(Insert(x, s, key), key)
  {
    if s != [] && key(x) > key(s[0]) {
      InsertSorted(x, s[1..], key);
      InsertPermutation(x, s[1..], key);
      var r := Insert(x, s[1..], key);
      forall i | 0 <= i < |r| ensures key(s[0]) <= key(r[i]) {
        assert r[i] in multiset(r);
        assert r[i] in multiset(s[1..]) || r[i] == x;
      }
    }
  }

  lemma {:induction false} InsertTies<T>(x: T, s: seq<T>, key: T -> int, k: int)
    ensures TiesOf(Insert(x, s, key), key, k) ==
      if key(x) == k then [x] + TiesOf(s, key, k) else TiesOf(s, key, k)
  {
    if s != [] && key(x) > key(s[0]) {
      InsertTies(x, s[1..], key, k);
    }
  }

  /** The sorted sequence is a permutation of the input. */
  lemma {:induction false} SortByPermutation<T>(s: seq<T>, key: T -> int)
    ensures multiset(SortBy(s, key)) == multiset(s)
    ensures |SortBy(s, key)| == |s|
  {
    if s != [] {
      SortByPermutation(s[1..], key);
      InsertPermutation(s[0], SortBy(s[1..], key), key);
      assert s == [s[0]] + s[1..];
    }
  }

  /** The sorted sequence is non-decreasing by key. */
  lemma {:induction false} SortBySorted<T>(s: seq<T>, key: T -> int)
    ensures SortedBy(SortBy(s, key), key)
  {
    if s != [] {
      SortBySorted(s[1..], key);
      InsertSorted(s[0], SortBy(s[1..], key), key);
    }
  }

  /** Stability: for every key, the elements with that key appear in the
      sorted sequence in exactly the order they had in the input. */
  lemma {:induction false} SortByStable<T>(s: seq<T>, key: T -> int, k: int)
    ensures TiesOf(SortBy(s, key), key, k) == TiesOf(s, key, k)
  {
    if s != [] {
      SortByStable(s[1..], key, k);
      InsertTies(s[0], SortBy(s[1..], key), key, k);
    }
  }

  /** The ties among the first `n` elements are the first of all the ties. */
  lemma TiesOfTake<T>(s: seq<T>, key: T -> int, k: int, n: nat)
    ensures TiesOf(Take(s, n), key, k) <= TiesOf(s, key, k)
  {
    if n < |s| {
      assert s == s[..n] + s[n..];
      FilterConcat(s[..n], s[n..], x => key(x) == k);
    }
  }
}
