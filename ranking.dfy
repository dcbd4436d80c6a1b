/**
 * Python's `sorted(xs, key=k, reverse=True)`: a stable sort into
 * non-increasing key order.  Elements with equal keys keep their input
 * order (Python's sort stays stable when `reverse=True`).
 */
module Ranking {

  /** Keys never increase from left to right. */
  predicate NonIncreasing<T>(s: seq<T>, key: T -> real) {
    forall i, j :: 0 <= i < j < |s| ==> key(s[i]) >= key(s[j])
  }

  /** The elements of `s` whose key is `v`, in order. */
  function WithKey<T>(s: seq<T>, key: T -> real, v: real): (r: seq<T>)
    ensures |r| <= |s|
  {
    if s == [] then []
    else (if key(s[0]) == v then [s[0]] else []) + WithKey(s[1..], key, v)
  }

  /** Puts `x` in front of the first element whose key is not above `x`'s. */
  function Insert<T>(x: T, t: seq<T>, key: T -> real): seq<T>
  {
    if t == [] || key(t[0]) <= key(x) then [x] + t
    else [t[0]] + Insert(x, t[1..], key)
  }

  function SortDesc<T>(s: seq<T>, key: T -> real): seq<T>
  {
    if s == [] then [] else Insert(s[0], SortDesc(s[1..], key), key)
  }

  lemma {:induction false} InsertFacts<T>(x: T, t: seq<T>, key: T -> real)
    requires NonIncreasing(t, key)
    ensures multiset(Insert(x, t, key)) == multiset([x] + t)
    ensures NonIncreasing(Insert(x, t, key), key)
    ensures |Insert(x, t, key)| == |t| + 1
    decreases |t|
  {
    if t != [] && key(t[0]) > key(x) {
      var tail := t[1..];
      assert NonIncreasing(tail, key) by {
        forall i, j | 0 <= i < j < |tail| ensures key(tail[i]) >= key(tail[j]) {
          assert tail[i] == t[i + 1] && tail[j] == t[j + 1];
        }
      }
      InsertFacts(x, tail, key);
      var rest := Insert(x, tail, key);
      assert t == [t[0]] + tail;
      assert Insert(x, t, key) == [t[0]] + rest;
      forall y | y in rest ensures key(y) <= key(t[0]) {
        assert y in multiset(rest);
        assert y == x || y in tail;
        if y in tail {
          var k :| 0 <= k < |tail| && tail[k] == y;
          assert t[k + 1] == y;
        }
      }
      ConsSorted(t[0], rest, key);
    }
  }

  /** A sorted list stays sorted behind an element whose key is at least every key in it. */
  lemma ConsSorted<T>(h: T, rest: seq<T>, key: T -> real)
    requires NonIncreasing(rest, key)
    requires forall y :: y in rest ==> key(y) <= key(h)
    ensures NonIncreasing([h] + rest, key)
  {
    var r := [h] + rest;
    forall i, j | 0 <= i < j < |r| ensures key(r[i]) >= key(r[j]) {
      assert r[j] == rest[j - 1];
      if i > 0 {
        assert r[i] == rest[i - 1];
      }
    }
  }

  /** The sort returns a rearrangement of its input. */
  lemma {:induction false} SortDescPermutes<T>(s: seq<T>, key: T -> real)
    ensures multiset(SortDesc(s, key)) == multiset(s)
    ensures |SortDesc(s, key)| == |s|
    ensures NonIncreasing(SortDesc(s, key), key)
    decreases |s|
  {
    if s != [] {
      SortDescPermutes(s[1..], key);
      InsertFacts(s[0], SortDesc(s[1..], key), key);
      assert s == [s[0]] + s[1..];
    }
  }

  lemma {:induction false} InsertWithKey<T>(x: T, t: seq<T>, key: T -> real, v: real)
    requires NonIncreasing(t, key)
    ensures WithKey(Insert(x, t, key), key, v) == WithKey([x] + t, key, v)
    decreases |t|
  {
    if t != [] && key(t[0]) > key(x) {
      InsertWithKey(x, t[1..], key, v);
      var r := Insert(x, t, key);
      assert r[1..] == Insert(x, t[1..], key);
      assert ([x] + t)[1..] == t;
      assert ([x] + t[1..])[1..] == t[1..];
      if key(x) == v {
        // t[0] is above x, so it is not among the elements with key v
        assert WithKey(r, key, v) == WithKey(r[1..], key, v);
        assert WithKey(t, key, v) == WithKey(t[1..], key, v);
      } else {
        assert WithKey([x] + t, key, v) == WithKey(t, key, v);
        assert WithKey([x] + t[1..], key, v) == WithKey(t[1..], key, v);
      }
    }
  }

  lemma {:induction false} SortDescStableStep<T>(s: seq<T>, key: T -> real, v: real)
    ensures WithKey(SortDesc(s, key), key, v) == WithKey(s, key, v)
    decreases |s|
  {
    if s != [] {
      SortDescStableStep(s[1..], key, v);
      SortDescPermutes(s[1..], key);
      InsertWithKey(s[0], SortDesc(s[1..], key), key, v);
      assert ([s[0]] + SortDesc(s[1..], key))[1..] == SortDesc(s[1..], key);
    }
  }

  /**
   * `sorted(s, key=key, reverse=True)`: a permutation of `s` in
   * non-increasing key order, in which elements with the same key appear in
   * the order they had in `s`.
   */
  function SortedDesc<T>(s: seq<T>, key: T -> real): (r: seq<T>)
    ensures multiset(r) == multiset(s) && |r| == |s|
    ensures NonIncreasing(r, key)
    ensures forall v :: WithKey(r, key, v) == WithKey(s, key, v)
  {
    SortDescPermutes(s, key);
    forall v ensures WithKey(SortDesc(s, key), key, v) == WithKey(s, key, v) {
      SortDescStableStep(s, key, v);
    }
    SortDesc(s, key)
  }

  /** When every key is the same, the order is unchanged. */
  lemma {:induction false} AllTiedKeepsOrder<T>(s: seq<T>, key: T -> real, v: real)
    requires forall i :: 0 <= i < |s| ==> key(s[i]) == v
    ensures SortedDesc(s, key) == s
  {
    var r := SortedDesc(s, key);
    AllWithKey(s, key, v);
    assert forall i :: 0 <= i < |r| ==> r[i] in multiset(s);
    forall i | 0 <= i < |r| ensures key(r[i]) == v {
      assert r[i] in multiset(s);
      var j :| 0 <= j < |s| && s[j] == r[i];
    }
    AllWithKey(r, key, v);
  }

  lemma {:induction false} AllWithKey<T>(s: seq<T>, key: T -> real, v: real)
    requires forall i :: 0 <= i < |s| ==> key(s[i]) == v
    ensures WithKey(s, key, v) == s
    decreases |s|
  {
    if s != [] {
      AllWithKey(s[1..], key, v);
    }
  }

  /** `[f(x) for x in s]`. */
  function Apply<T, U>(s: seq<T>, f: T -> U): (r: seq<U>)
    ensures |r| == |s| && forall i :: 0 <= i < |s| ==> r[i] == f(s[i])
  {
    seq(|s|, i requires 0 <= i < |s| => f(s[i]))
  }

  lemma {:induction false} InsertApply<T, U>(x: T, t: seq<T>, key: T -> real, f: T -> U, fkey: U -> real)
    requires forall y :: fkey(f(y)) == key(y)
    ensures Apply(Insert(x, t, key), f) == Insert(f(x), Apply(t, f), fkey)
    decreases |t|
  {
    if t != [] && key(t[0]) > key(x) {
      InsertApply(x, t[1..], key, f, fkey);
      assert Apply(t, f)[1..] == Apply(t[1..], f);
      assert Apply(Insert(x, t, key), f) == [f(t[0])] + Apply(Insert(x, t[1..], key), f);
    } else {
      assert Apply([x] + t, f) == [f(x)] + Apply(t, f);
    }
  }

  /**
   * Mapping every element through `f` before or after the sort gives the same
   * list when `f` keeps the key.
   */
  lemma {:induction false} SortApply<T, U>(s: seq<T>, key: T -> real, f: T -> U, fkey: U -> real)
    requires forall y :: fkey(f(y)) == key(y)
    ensures Apply(SortedDesc(s, key), f) == SortedDesc(Apply(s, f), fkey)
    decreases |s|
  {
    if s != [] {
      SortApply(s[1..], key, f, fkey);
      InsertApply(s[0], SortDesc(s[1..], key), key, f, fkey);
      assert Apply(s, f)[1..] == Apply(s[1..], f);
    }
  }
}
