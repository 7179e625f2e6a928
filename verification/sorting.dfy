/** `Array.prototype.sort` with a numeric comparator `(a, b) => key(a) - key(b)`,
    which the pipeline uses to order segments by `order` and audio segments
    by `index`. The language requires this sort to be stable, so it is
    modelled as a stable insertion sort on a copy. */
module Sorting {

  predicate SortedBy<T>(s: seq<T>, key: T -> int) {
    forall i, j :: 0 <= i < j < |s| ==> key(s[i]) <= key(s[j])
  }

  /** Inserts x before the first element whose key is not smaller. */
  function Insert<T>(x: T, s: seq<T>, key: T -> int): seq<T>
    decreases |s|
  {
    if s == [] || key(x) <= key(s[0]) then [x] + s else [s[0]] + Insert(x, s[1..], key)
  }

  function SortBy<T>(s: seq<T>, key: T -> int): seq<T>
    decreases |s|
  {
    if s == [] then [] else Insert(s[0], SortBy(s[1..], key), key)
  }

  /** The elements of s whose key is k, in their order in s. */
  function WithKey<T>(s: seq<T>, key: T -> int, k: int): seq<T>
    decreases |s|
  {
    if s == [] then []
    else (if key(s[0]) == k then [s[0]] else []) + WithKey(s[1..], key, k)
  }

  /** Insertion adds exactly x, and puts first either x or the old first
      element. */
  lemma {:induction false} InsertAddsOne<T>(x: T, s: seq<T>, key: T -> int)
    ensures multiset(Insert(x, s, key)) == multiset(s) + multiset{x}
    ensures |Insert(x, s, key)| == |s| + 1
    ensures Insert(x, s, key)[0] == x || (s != [] && Insert(x, s, key)[0] == s[0])
    decreases |s|
  {
    if s != [] && key(x) > key(s[0]) {
      InsertAddsOne(x, s[1..], key);
      assert s == [s[0]] + s[1..];
    }
  }

  lemma {:induction false} InsertKeepsOrder<T>(x: T, s: seq<T>, key: T -> int)
    requires SortedBy(s, key)
    ensures SortedBy(Insert(x, s, key), key)
    decreases |s|
  {
    if s != [] && key(x) > key(s[0]) {
      var tail := s[1..];
      assert SortedBy(tail, key);
      InsertKeepsOrder(x, tail, key);
      InsertAddsOne(x, tail, key);
      var r := Insert(x, tail, key);
      assert key(s[0]) <= key(r[0]) by {
        if r[0] != x {
          assert r[0] == tail[0] == s[1];
        }
      }
      var out := [s[0]] + r;
      assert Insert(x, s, key) == out;
      forall i, j | 0 <= i < j < |out| ensures key(out[i]) <= key(out[j]) {
        if i == 0 {
          assert key(r[0]) <= key(r[j - 1]);
        } else {
          assert out[i] == r[i - 1] && out[j] == r[j - 1];
        }
      }
    }
  }

  lemma {:induction false} InsertWithKey<T>(x: T, s: seq<T>, key: T -> int, k: int)
    ensures WithKey(Insert(x, s, key), key, k) == (if key(x) == k then [x] else []) + WithKey(s, key, k)
    decreases |s|
  {
    if s == [] || key(x) <= key(s[0]) {
      assert ([x] + s)[1..] == s;
    } else {
      var tail := s[1..];
      InsertWithKey(x, tail, key, k);
      var r := Insert(x, tail, key);
      var out := [s[0]] + r;
      assert Insert(x, s, key) == out;
      assert out[0] == s[0] && out[1..] == r;
      assert WithKey(s, key, k) == (if key(s[0]) == k then [s[0]] else []) + WithKey(tail, key, k);
      assert WithKey(out, key, k) == (if key(s[0]) == k then [s[0]] else []) + WithKey(r, key, k);
      // s[0] has a smaller key than x, so at most one of them has key k
      if key(s[0]) == k {
        assert key(x) != k;
      } else {
        assert WithKey(out, key, k) == WithKey(r, key, k);
      }
    }
  }

  /** The sorted copy is ordered by key and is a permutation of the input. */
  lemma {:induction false} SortByOrders<T>(s: seq<T>, key: T -> int)
    ensures SortedBy(SortBy(s, key), key)
    ensures multiset(SortBy(s, key)) == multiset(s)
    ensures |SortBy(s, key)| == |s|
    decreases |s|
  {
    if s != [] {
      SortByOrders(s[1..], key);
      InsertKeepsOrder(s[0], SortBy(s[1..], key), key);
      InsertAddsOne(s[0], SortBy(s[1..], key), key);
      assert s == [s[0]] + s[1..];
    }
  }

  /** Stability: elements with equal keys keep their relative order. */
  lemma {:induction false} SortByStable<T>(s: seq<T>, key: T -> int, k: int)
    ensures WithKey(SortBy(s, key), key, k) == WithKey(s, key, k)
    decreases |s|
  {
    if s != [] {
      SortByStable(s[1..], key, k);
      InsertWithKey(s[0], SortBy(s[1..], key), key, k);
    }
  }

  /** Sorting a sequence that is already in key order leaves it as it is. */
  lemma {:induction false} SortBySorted<T>(s: seq<T>, key: T -> int)
    requires SortedBy(s, key)
    ensures SortBy(s, key) == s
    decreases |s|
  {
    if s != [] {
      assert SortedBy(s[1..], key);
      SortBySorted(s[1..], key);
      assert s == [s[0]] + s[1..];
      if |s| > 1 {
        assert key(s[0]) <= key(s[1]);
      }
    }
  }
}
