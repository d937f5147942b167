/** Identifiers and small sequence vocabulary shared by the component models. */
module Types {

  /** Users, conversations, messages, connections and servers are all named by UUIDs. */
  type Uuid = nat

  datatype Option<+T> = None | Some(value: T)

  /** Widths of the machine integers the service computes with. */
  const TWO_TO_16: int := 0x1_0000
  const TWO_TO_32: int := 0x1_0000_0000
  const TWO_TO_64: int := 0x1_0000_0000_0000_0000

  function Min(a: int, b: int): int {
    if a <= b then a else b
  }

  function Max(a: int, b: int): int {
    if a <= b then b else a
  }

  ghost predicate NoDuplicates<T>(s: seq<T>) {
    forall i, j :: 0 <= i < j < |s| ==> s[i] != s[j]
  }

  /** The first `n` elements, or all of them when there are fewer. */
  function Take<T>(s: seq<T>, n: nat): seq<T> {
    if n <= |s| then s[..n] else s
  }

  /** The last `n` elements, or all of them when there are fewer. */
  function LastN<T>(s: seq<T>, n: nat): seq<T> {
    if n <= |s| then s[|s| - n..] else s
  }

  /** The elements of `s` that are not in `gone`, in order. */
  function Without<T(==)>(s: seq<T>, gone: set<T>): seq<T> {
    if s == [] then []
    else if s[0] in gone then Without(s[1..], gone)
    else [s[0]] + Without(s[1..], gone)
  }

  /** The ids of `ids` not in `known`, each once, in order of first appearance. */
  function DistinctNew(known: set<Uuid>, ids: seq<Uuid>): seq<Uuid> {
    if ids == [] then []
    else
      var last := ids[|ids| - 1];
      var r := DistinctNew(known, ids[..|ids| - 1]);
      if last in known || last in r then r else r + [last]
  }

  /** Where `x` appears for the first time. */
  ghost function FirstIndex(ids: seq<Uuid>, x: Uuid): nat
    requires x in ids
  {
    if ids[0] == x then 0 else 1 + FirstIndex(ids[1..], x)
  }

  lemma {:induction false} FirstIndexAppend(ids: seq<Uuid>, y: Uuid, x: Uuid)
    requires x in ids + [y]
    ensures FirstIndex(ids + [y], x) == if x in ids then FirstIndex(ids, x) else |ids|
    ensures FirstIndex(ids + [y], x) <= |ids| && (x in ids ==> FirstIndex(ids + [y], x) < |ids|)
  {
    if ids != [] && ids[0] != x {
      assert (ids + [y])[1..] == ids[1..] + [y];
      FirstIndexAppend(ids[1..], y, x);
    }
  }

  /** `list` is in the order in which its elements first appear in `ids`. */
  ghost predicate InFirstOrder(list: seq<Uuid>, ids: seq<Uuid>) {
    && (forall x :: x in list ==> x in ids)
    && forall i, j :: 0 <= i < j < |list| ==> FirstIndex(ids, list[i]) < FirstIndex(ids, list[j])
  }

  lemma StillInFirstOrder(list: seq<Uuid>, ids: seq<Uuid>, y: Uuid)
    requires InFirstOrder(list, ids)
    ensures InFirstOrder(list, ids + [y])
    ensures y !in ids ==> InFirstOrder(list + [y], ids + [y])
  {
    forall x | x in list ensures FirstIndex(ids + [y], x) == FirstIndex(ids, x) < |ids| {
      FirstIndexAppend(ids, y, x);
    }
    FirstIndexAppend(ids, y, y);
  }

  /** Together with the order this determines the list: the new ids, each once, as they first appear. */
  lemma {:induction false} DistinctNewMembers(known: set<Uuid>, ids: seq<Uuid>)
    ensures NoDuplicates(DistinctNew(known, ids))
    ensures forall x :: x in DistinctNew(known, ids) <==> x in ids && x !in known
    ensures InFirstOrder(DistinctNew(known, ids), ids)
  {
    if ids != [] {
      var init, last := ids[..|ids| - 1], ids[|ids| - 1];
      DistinctNewMembers(known, init);
      assert ids == init + [last];
      StillInFirstOrder(DistinctNew(known, init), init, last);
    }
  }

  lemma {:induction false} DistinctNewGrows(known: set<Uuid>, ids: seq<Uuid>, i: nat)
    requires i <= |ids|
    ensures DistinctNew(known, ids[..i]) <= DistinctNew(known, ids)
  {
    if i < |ids| {
      assert ids[..|ids| - 1][..i] == ids[..i];
      DistinctNewGrows(known, ids[..|ids| - 1], i);
    } else {
      assert ids[..i] == ids;
    }
  }

  lemma DistinctNewStep(known: set<Uuid>, ids: seq<Uuid>, i: nat)
    requires i < |ids|
    ensures
      var r := DistinctNew(known, ids[..i]);
      DistinctNew(known, ids[..i + 1]) == if ids[i] in known || ids[i] in r then r else r + [ids[i]]
  {
    assert ids[..i + 1][..i] == ids[..i];
  }

  function Elems<T>(s: seq<T>): set<T> {
    set x | x in s
  }

  lemma Reassociate<T>(a: seq<T>, b: seq<T>, c: seq<T>)
    ensures a + (b + c) == (a + b) + c
  {
  }

  lemma SplitFirst<T>(a: seq<T>, b: seq<T>)
    requires b != []
    ensures a + b == a + [b[0]] + b[1..]
  {
  }

  lemma ElemsAppend<T>(s: seq<T>, x: T)
    ensures Elems(s + [x]) == Elems(s) + {x}
  {
  }

  lemma {:induction false} ElemsOfDistinct(s: seq<Uuid>)
    requires NoDuplicates(s)
    ensures |Elems(s)| == |s|
  {
    if s != [] {
      var init, last := s[..|s| - 1], s[|s| - 1];
      ElemsOfDistinct(init);
      assert s == init + [last];
      ElemsAppend(init, last);
    }
  }

  function Members<K, V>(m: map<K, set<V>>, k: K): set<V> {
    if k in m then m[k] else {}
  }

  function Entries<K, V>(m: map<K, seq<V>>, k: K): seq<V> {
    if k in m then m[k] else []
  }
}
