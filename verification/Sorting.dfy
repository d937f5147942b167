/**
 Rust's `sort_by_key`, and SQL's ORDER BY over distinct keys: the stable sort of a sequence.
 `SortIsTheOnlyStableSort` pins the result down completely, so nothing depends on
 the insertion sort used to define it.
 */
module Sorting {

  function InsertByKey<T>(x: T, s: seq<T>, key: T -> int): seq<T> {
    if s == [] || key(x) <= key(s[0]) then [x] + s
    else [s[0]] + InsertByKey(x, s[1..], key)
  }

  function SortByKey<T>(s: seq<T>, key: T -> int): seq<T> {
    if s == [] then [] else InsertByKey(s[0], SortByKey(s[1..], key), key)
  }

  ghost predicate SortedByKey<T>(s: seq<T>, key: T -> int) {
    forall i, j :: 0 <= i < j < |s| ==> key(s[i]) <= key(s[j])
  }

  /** The elements of `s` with key `k`, in order: what a stable sort must not disturb. */
  function WithKey<T>(s: seq<T>, key: T -> int, k: int): seq<T> {
    if s == [] then []
    else (if key(s[0]) == k then [s[0]] else []) + WithKey(s[1..], key, k)
  }

  ghost predicate StableSortOf<T>(t: seq<T>, s: seq<T>, key: T -> int) {
    SortedByKey(t, key) && forall k :: WithKey(t, key, k) == WithKey(s, key, k)
  }

  lemma {:induction false} InsertAddsOne<T>(x: T, s: seq<T>, key: T -> int)
    ensures multiset(InsertByKey(x, s, key)) == multiset(s) + multiset{x}
  {
    if s == [] || key(x) <= key(s[0]) {
    } else {
      InsertAddsOne(x, s[1..], key);
      assert s == [s[0]] + s[1..];
    }
  }

  lemma {:induction false} InsertKeepsOrder<T>(x: T, s: seq<T>, key: T -> int)
    requires SortedByKey(s, key)
    ensures SortedByKey(InsertByKey(x, s, key), key)
  {
    if s == [] || key(x) <= key(s[0]) {
    } else {
      var r := InsertByKey(x, s[1..], key);
      InsertKeepsOrder(x, s[1..], key);
      InsertAddsOne(x, s[1..], key);
      forall i | 0 <= i < |r| ensures key(s[0]) <= key(r[i]) {
        assert r[i] in multiset(s[1..]) + multiset{x};
      }
    }
  }

  lemma WithKeyPrepend<T>(x: T, s: seq<T>, key: T -> int, k: int)
    ensures WithKey([x] + s, key, k) == (if key(x) == k then [x] else []) + WithKey(s, key, k)
  {
    assert ([x] + s)[1..] == s;
  }

  lemma {:induction false} InsertGoesFirst<T>(x: T, s: seq<T>, key: T -> int, k: int)
    ensures WithKey(InsertByKey(x, s, key), key, k) == (if key(x) == k then [x] else []) + WithKey(s, key, k)
  {
    if s == [] || key(x) <= key(s[0]) {
      WithKeyPrepend(x, s, key, k);
    } else {
      InsertGoesFirst(x, s[1..], key, k);
      WithKeyPrepend(s[0], InsertByKey(x, s[1..], key), key, k);
      var tail := WithKey(s[1..], key, k);
      assert [] + tail == tail;
      assert [] + ([s[0]] + tail) == [s[0]] + tail;
      assert [] + ([x] + tail) == [x] + tail;
    }
  }

  lemma {:induction false} SortIsStable<T>(s: seq<T>, key: T -> int)
    ensures StableSortOf(SortByKey(s, key), s, key)
    ensures multiset(SortByKey(s, key)) == multiset(s)
  {
    if s == [] {
    } else {
      SortIsStable(s[1..], key);
      assert s == [s[0]] + s[1..];
      InsertKeepsOrder(s[0], SortByKey(s[1..], key), key);
      InsertAddsOne(s[0], SortByKey(s[1..], key), key);
      forall k ensures WithKey(SortByKey(s, key), key, k) == WithKey(s, key, k) {
        InsertGoesFirst(s[0], SortByKey(s[1..], key), key, k);
      }
    }
  }

  lemma {:induction false} WithKeyFindsFirst<T>(s: seq<T>, key: T -> int, i: nat)
    requires i < |s|
    ensures WithKey(s, key, key(s[i])) != []
    ensures exists j :: 0 <= j < |s| && WithKey(s, key, key(s[i]))[0] == s[j] && key(s[j]) == key(s[i])
  {
    if key(s[0]) != key(s[i]) {
      WithKeyFindsFirst(s[1..], key, i - 1);
    }
  }

  /** A sequence is determined by being sorted and by its elements of each key in order. */
  lemma {:induction false} SortedIsDetermined<T>(a: seq<T>, b: seq<T>, key: T -> int)
    requires SortedByKey(a, key) && SortedByKey(b, key)
    requires forall k :: WithKey(a, key, k) == WithKey(b, key, k)
    ensures a == b
  {
    BothEmptyOrNeither(a, b, key);
    if a != [] {
      WithKeyFindsFirst(a, key, 0);
      SameHeadKey(a, b, key);
      assert WithKey(a, key, key(a[0])) == WithKey(b, key, key(a[0]));
      assert a[0] == b[0];
      forall k ensures WithKey(a[1..], key, k) == WithKey(b[1..], key, k) {
        assert WithKey(a, key, k) == WithKey(b, key, k);
        var head := if key(a[0]) == k then [a[0]] else [];
        assert WithKey(a[1..], key, k) == WithKey(a, key, k)[|head|..];
        assert WithKey(b[1..], key, k) == WithKey(b, key, k)[|head|..];
      }
      SortedIsDetermined(a[1..], b[1..], key);
      assert a == [a[0]] + a[1..] && b == [b[0]] + b[1..];
    }
  }

  lemma BothEmptyOrNeither<T>(a: seq<T>, b: seq<T>, key: T -> int)
    requires forall k :: WithKey(a, key, k) == WithKey(b, key, k)
    ensures a == [] <==> b == []
  {
    if a != [] {
      assert WithKey(a, key, key(a[0])) == WithKey(b, key, key(a[0]));
    } else if b != [] {
      assert WithKey(b, key, key(b[0])) == WithKey(a, key, key(b[0]));
    }
  }

  lemma SameHeadKey<T>(a: seq<T>, b: seq<T>, key: T -> int)
    requires a != [] && b != [] && SortedByKey(a, key) && SortedByKey(b, key)
    requires forall k :: WithKey(a, key, k) == WithKey(b, key, k)
    ensures key(a[0]) == key(b[0])
  {
    WithKeyFindsFirst(a, key, 0);
    WithKeyFindsFirst(b, key, 0);
    KeyOccurs(b, key, key(a[0]));
    KeyOccurs(a, key, key(b[0]));
  }

  lemma {:induction false} KeyOccurs<T>(s: seq<T>, key: T -> int, k: int)
    requires WithKey(s, key, k) != []
    ensures exists i :: 0 <= i < |s| && key(s[i]) == k
  {
    if key(s[0]) != k {
      KeyOccurs(s[1..], key, k);
      var i :| 0 <= i < |s[1..]| && key(s[1..][i]) == k;
      assert key(s[i + 1]) == k;
    }
  }

  lemma SortIsTheOnlyStableSort<T>(t: seq<T>, s: seq<T>, key: T -> int)
    ensures StableSortOf(t, s, key) <==> t == SortByKey(s, key)
  {
    SortIsStable(s, key);
    if StableSortOf(t, s, key) {
      SortedIsDetermined(t, SortByKey(s, key), key);
    }
  }

  lemma SortKeepsElements<T>(s: seq<T>, key: T -> int)
    ensures |SortByKey(s, key)| == |s|
    ensures multiset(SortByKey(s, key)) == multiset(s)
    ensures forall x :: x in SortByKey(s, key) <==> x in s
  {
    SortIsStable(s, key);
    assert |SortByKey(s, key)| == |multiset(SortByKey(s, key))| == |multiset(s)| == |s|;
    forall x ensures x in SortByKey(s, key) <==> x in s {
      assert x in SortByKey(s, key) <==> x in multiset(SortByKey(s, key));
    }
  }
}
