/**
 * Python's `sorted(xs, key=...)` and `list.sort(key=...)` for an integer
 * key: a stable sort, written as an insertion sort that places each element
 * after every element whose key is not larger.
 */
module Sorting {

  predicate SortedBy<T>(s: seq<T>, key: T -> int)
  {
    forall i, j :: 0 <= i < j < |s| ==> key(s[i]) <= key(s[j])
  }

  /** The elements of `s` whose key is `k`, in their order in `s`. */
  function WithKey<T>(s: seq<T>, key: T -> int, k: int): seq<T>
  {
    if |s| == 0 then []
    else (if key(s[0]) == k then [s[0]] else []) + WithKey(s[1..], key, k)
  }

  /** Places `x` after every leading element whose key is not larger. */
  function Insert<T>(x: T, s: seq<T>, key: T -> int): (r: seq<T>)
    ensures |r| == |s| + 1
  {
    if |s| == 0 then [x]
    else if key(s[0]) <= key(x) then [s[0]] + Insert(x, s[1..], key)
    else [x] + s
  }

  lemma {:induction false} InsertPermutes<T>(x: T, s: seq<T>, key: T -> int)
    ensures multiset(Insert(x, s, key)) == multiset(s) + multiset{x}
  {
    if |s| == 0 {
      assert Insert(x, s, key) == [x];
    } else if key(s[0]) <= key(x) {
      var rest := Insert(x, s[1..], key);
      assert Insert(x, s, key) == [s[0]] + rest;
      InsertPermutes(x, s[1..], key);
      assert multiset([s[0]] + rest) == multiset{s[0]} + multiset(rest);
      assert s == [s[0]] + s[1..];
      assert multiset(s) == multiset{s[0]} + multiset(s[1..]);
    } else {
      assert Insert(x, s, key) == [x] + s;
      assert multiset([x] + s) == multiset{x} + multiset(s);
    }
  }

  /** A lower bound of `x` and of every element of `s` bounds every element of the insertion. */
  lemma {:induction false} InsertBounded<T>(x: T, s: seq<T>, key: T -> int, b: int)
    requires b <= key(x) && forall i :: 0 <= i < |s| ==> b <= key(s[i])
    ensures forall i :: 0 <= i < |s| + 1 ==> b <= key(Insert(x, s, key)[i])
  {
    if |s| > 0 && key(s[0]) <= key(x) {
      InsertBounded(x, s[1..], key, b);
    }
  }

  lemma {:induction false} InsertSorted<T>(x: T, s: seq<T>, key: T -> int)
    requires SortedBy(s, key)
    ensures SortedBy(Insert(x, s, key), key)
  {
    if |s| > 0 && key(s[0]) <= key(x) {
      InsertSorted(x, s[1..], key);
      InsertBounded(x, s[1..], key, key(s[0]));
    }
  }

  /** `sorted(xs, key=key)`. */
  function SortBy<T>(xs: seq<T>, key: T -> int): (r: seq<T>)
    ensures SortedBy(r, key)
    ensures multiset(r) == multiset(xs)
  {
    if |xs| == 0 then []
    else
      var init := SortBy(xs[..|xs| - 1], key);
      InsertSorted(xs[|xs| - 1], init, key);
      InsertPermutes(xs[|xs| - 1], init, key);
      assert xs == xs[..|xs| - 1] + [xs[|xs| - 1]];
      Insert(xs[|xs| - 1], init, key)
  }

  lemma {:induction false} WithKeyAppend<T>(a: seq<T>, b: seq<T>, key: T -> int, k: int)
    ensures WithKey(a + b, key, k) == WithKey(a, key, k) + WithKey(b, key, k)
  {
    if |a| == 0 {
      assert a + b == b;
    } else {
      assert (a + b)[0] == a[0];
      assert (a + b)[1..] == a[1..] + b;
      var h := if key(a[0]) == k then [a[0]] else [];
      assert WithKey(a + b, key, k) == h + WithKey(a[1..] + b, key, k);
      WithKeyAppend(a[1..], b, key, k);
      assert WithKey(a, key, k) == h + WithKey(a[1..], key, k);
    }
  }

  lemma {:induction false} InsertWithKey<T>(x: T, s: seq<T>, key: T -> int, k: int)
    requires SortedBy(s, key)
    ensures WithKey(Insert(x, s, key), key, k) == WithKey(s, key, k) + WithKey([x], key, k)
  {
    if |s| == 0 {
      assert WithKey(s, key, k) == [];
    } else if key(s[0]) <= key(x) {
      var head, rest := [s[0]], Insert(x, s[1..], key);
      assert Insert(x, s, key) == head + rest;
      InsertWithKey(x, s[1..], key, k);
      WithKeyAppend(head, rest, key, k);
      assert s == head + s[1..];
      WithKeyAppend(head, s[1..], key, k);
      AppendAssociative(WithKey(head, key, k), WithKey(s[1..], key, k), WithKey([x], key, k));
    } else {
      assert Insert(x, s, key) == [x] + s;
      WithKeyAppend([x], s, key, k);
      if key(x) == k {
        // every element of s has a key larger than x's, so none of them shares x's key
        NoneWithKey(s, key, k);
      } else {
        assert WithKey([x], key, k) == [] by {
          assert [x][1..] == [];
        }
      }
    }
  }

  lemma AppendAssociative<T>(a: seq<T>, b: seq<T>, c: seq<T>)
    ensures a + b + c == a + (b + c)
  {
  }

  lemma {:induction false} NoneWithKey<T>(s: seq<T>, key: T -> int, k: int)
    requires forall i :: 0 <= i < |s| ==> key(s[i]) > k
    ensures |WithKey(s, key, k)| == 0
  {
    if |s| > 0 {
      NoneWithKey(s[1..], key, k);
    }
  }

  /** Stability: for each key, the elements carrying it keep their relative order. */
  lemma {:induction false} SortByStable<T>(xs: seq<T>, key: T -> int, k: int)
    ensures WithKey(SortBy(xs, key), key, k) == WithKey(xs, key, k)
  {
    if |xs| > 0 {
      var init := xs[..|xs| - 1];
      var last := xs[|xs| - 1];
      var sortedInit := SortBy(init, key);
      assert SortBy(xs, key) == Insert(last, sortedInit, key);
      InsertWithKey(last, sortedInit, key, k);
      SortByStable(init, key, k);
      assert WithKey(SortBy(xs, key), key, k) == WithKey(init, key, k) + WithKey([last], key, k);
      assert xs == init + [last];
      WithKeyAppend(init, [last], key, k);
    }
  }
}
