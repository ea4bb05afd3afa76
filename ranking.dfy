/**
 * Ranking shared by the search paths: Python's stable `list.sort(key=...,
 * reverse=True)` on a real-valued key, and the `[:n]` slice that follows it.
 */
module Ranking {

  /** Descending by `key`: no element is followed by one with a larger key. */
  predicate SortedDesc<T>(s: seq<T>, key: T -> real)
  {
    forall i, j :: 0 <= i < j < |s| ==> key(s[i]) >= key(s[j])
  }

  /** `x` placed before the first element whose key does not exceed its own. */
  function Insert<T>(x: T, s: seq<T>, key: T -> real): (r: seq<T>)
    ensures |r| == |s| + 1
    ensures multiset(r) == multiset(s) + multiset{x}
  {
    if s == [] || key(s[0]) <= key(x) then [x] + s
    else
      assert s == [s[0]] + s[1..];
      [s[0]] + Insert(x, s[1..], key)
  }

  lemma {:induction false} InsertSorted<T>(x: T, s: seq<T>, key: T -> real)
    requires SortedDesc(s, key)
    ensures SortedDesc(Insert(x, s, key), key)
  {
    if s != [] && key(s[0]) > key(x) {
      InsertSorted(x, s[1..], key);
      var t := Insert(x, s[1..], key);
      assert multiset(t) == multiset(s[1..]) + multiset{x};
      forall k | 0 <= k < |t| ensures key(s[0]) >= key(t[k]) {
        assert t[k] in multiset(t);
        if t[k] != x {
          assert t[k] in multiset(s[1..]);
          var m :| 0 <= m < |s[1..]| && s[1..][m] == t[k];
          assert s[1 + m] == t[k];
        }
      }
    }
  }

  /**
   * The sort, processing elements from the last: each earlier element goes in
   * front of the later ones of equal key, so equal keys keep their order
   * (`SortDescStable`).
   */
  function SortDesc<T>(s: seq<T>, key: T -> real): (r: seq<T>)
    ensures |r| == |s|
    ensures multiset(r) == multiset(s)
  {
    if s == [] then []
    else
      assert s == [s[0]] + s[1..];
      Insert(s[0], SortDesc(s[1..], key), key)
  }

  /** The result of the sort is descending and a permutation of its input. */
  lemma {:induction false} SortDescSorted<T>(s: seq<T>, key: T -> real)
    ensures SortedDesc(SortDesc(s, key), key)
    ensures multiset(SortDesc(s, key)) == multiset(s)
  {
    if s != [] {
      SortDescSorted(s[1..], key);
      InsertSorted(s[0], SortDesc(s[1..], key), key);
    }
  }

  /** The elements of `s` whose key is `k`, in the order of `s`. */
  function WithKey<T>(s: seq<T>, key: T -> real, k: real): seq<T>
  {
    if s == [] then [] else (if key(s[0]) == k then [s[0]] else []) + WithKey(s[1..], key, k)
  }

  lemma WithKeyCons<T>(x: T, s: seq<T>, key: T -> real, k: real)
    ensures WithKey([x] + s, key, k) == (if key(x) == k then [x] else []) + WithKey(s, key, k)
  {
    assert ([x] + s)[1..] == s;
  }

  /** Inserting `x` puts it ahead of every element with its own key. */
  lemma {:induction false} InsertWithKey<T>(x: T, s: seq<T>, key: T -> real, k: real)
    ensures WithKey(Insert(x, s, key), key, k) == (if key(x) == k then [x] else []) + WithKey(s, key, k)
  {
    if s == [] || key(s[0]) <= key(x) {
      WithKeyCons(x, s, key, k);
    } else {
      var y, rest := s[0], s[1..];
      assert s == [y] + rest;
      InsertWithKey(x, rest, key, k);
      WithKeyCons(y, Insert(x, rest, key), key, k);
      WithKeyCons(y, rest, key, k);
      if key(y) == k {
        assert key(x) != k;
      } else {
        assert WithKey(Insert(x, s, key), key, k) == WithKey(Insert(x, rest, key), key, k);
      }
    }
  }

  /**
   * The sort is stable: for every key, the elements with that key come out in
   * the order they went in, so ties are cut by the input's order.
   */
  lemma {:induction false} SortDescStable<T>(s: seq<T>, key: T -> real, k: real)
    ensures WithKey(SortDesc(s, key), key, k) == WithKey(s, key, k)
  {
    if s != [] {
      SortDescStable(s[1..], key, k);
      InsertWithKey(s[0], SortDesc(s[1..], key), key, k);
    }
  }

  /** Everything in a permutation of `a` is in `a`. */
  lemma PermutationMembers<T>(a: seq<T>, b: seq<T>)
    requires multiset(a) == multiset(b)
    ensures forall x :: x in b ==> x in a
  {
    forall x | x in b ensures x in a {
      assert x in multiset(b);
    }
  }

  /** Python's `s[:n]`. */
  function Take<T>(s: seq<T>, n: int): (r: seq<T>)
    ensures |r| == if n < 0 then (if |s| + n < 0 then 0 else |s| + n) else if n < |s| then n else |s|
  {
    if n < 0 then (if |s| + n < 0 then [] else s[..|s| + n])
    else if n < |s| then s[..n] else s
  }

  /** The first `n` of a descending sequence are descending and no smaller than the rest. */
  lemma TakeOfSorted<T>(s: seq<T>, key: T -> real, n: int)
    requires SortedDesc(s, key)
    ensures SortedDesc(Take(s, n), key)
    ensures forall i, j :: 0 <= i < |Take(s, n)| <= j < |s| ==> key(s[i]) >= key(s[j])
  {
  }

  /** `s[:n]` is a prefix of `s`, so everything in it is in `s`. */
  lemma TakeIsPrefix<T>(s: seq<T>, n: int)
    ensures Take(s, n) == s[..|Take(s, n)|]
    ensures forall x :: x in Take(s, n) ==> x in s
  {
    var t := Take(s, n);
    forall x | x in t ensures x in s {
      var k :| 0 <= k < |t| && t[k] == x;
      assert s[k] == x;
    }
  }
}
