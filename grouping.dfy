/**
  Grouping a sequence by a key, the way the services accumulate into Python
  dictionaries. A Python `dict` keeps its keys in insertion order, so a grouped
  result is an `OrderedMap`: the keys in first-encounter order and the value of each.

  Sequences are taken apart at their LAST element throughout, because the
  services' loops append one element at a time.
*/
module Grouping {

  /** A Python dictionary: keys in insertion order, and the value stored under each. */
  datatype OrderedMap<K, V> = OrderedMap(keys: seq<K>, entries: map<K, V>)

  ghost predicate Distinct<K>(ks: seq<K>) {
    forall i, j :: 0 <= i < j < |ks| ==> ks[i] != ks[j]
  }

  /** The key order lists each stored key exactly once. */
  ghost predicate WellFormed<K(!new), V>(m: OrderedMap<K, V>) {
    Distinct(m.keys) && forall k :: k in m.entries <==> k in m.keys
  }

  /** `[x for x in xs if key(x) == k]`. */
  function Group<T(!new), K(==,!new)>(xs: seq<T>, key: T -> K, k: K): (g: seq<T>)
    ensures |g| <= |xs|
    ensures forall x :: x in g ==> x in xs && key(x) == k
  {
    if xs == [] then []
    else Group(xs[..|xs| - 1], key, k) + (if key(xs[|xs| - 1]) == k then [xs[|xs| - 1]] else [])
  }

  /** Every element with key `k` is in the group of `k`. */
  lemma {:induction false} InGroup<T(!new), K(!new)>(xs: seq<T>, key: T -> K, k: K, x: T)
    requires x in xs && key(x) == k
    ensures x in Group(xs, key, k)
  {
    var front := xs[..|xs| - 1];
    if x != xs[|xs| - 1] {
      assert x in front by { assert xs == front + [xs[|xs| - 1]]; }
      InGroup(front, key, k, x);
    }
  }

  /** The distinct keys of `xs`, in the order in which they are first met. */
  function KeysInOrder<T(!new), K(==,!new)>(xs: seq<T>, key: T -> K): (ks: seq<K>)
    ensures Distinct(ks)
    ensures forall k :: k in ks <==> exists x :: x in xs && key(x) == k
    ensures |ks| <= |xs|
  {
    if xs == [] then []
    else
      var ks := KeysInOrder(xs[..|xs| - 1], key);
      var x := xs[|xs| - 1];
      assert forall y :: y in xs <==> y in xs[..|xs| - 1] || y == x;
      if key(x) in ks then ks else ks + [key(x)]
  }

  /** A key that no element has has an empty group. */
  lemma GroupOfAbsentKey<T(!new), K(!new)>(xs: seq<T>, key: T -> K, k: K)
    requires k !in KeysInOrder(xs, key)
    ensures Group(xs, key, k) == []
  {
  }

  /** `acc = init; for x in xs: acc = step(acc, x)`. */
  function Fold<T, V>(xs: seq<T>, init: V, step: (V, T) -> V): V {
    if xs == [] then init else step(Fold(xs[..|xs| - 1], init, step), xs[|xs| - 1])
  }

  /** `t` is what grouping `xs` by `key` and folding each group with `step` from `init` gives. */
  ghost predicate Aggregates<T(!new), K(!new), V>(t: OrderedMap<K, V>, xs: seq<T>, key: T -> K, init: V, step: (V, T) -> V) {
    && t.keys == KeysInOrder(xs, key)
    && (forall k :: k in t.entries <==> k in t.keys)
    && (forall k :: k in t.entries ==> t.entries[k] == Fold(Group(xs, key, k), init, step))
  }

  /** Two dictionaries with the same key order that agree on every key are equal. */
  lemma SameEntries<K, V>(a: OrderedMap<K, V>, b: OrderedMap<K, V>)
    requires a.keys == b.keys
    requires forall k :: k in a.entries <==> k in a.keys
    requires forall k :: k in b.entries <==> k in b.keys
    requires forall i :: 0 <= i < |a.keys| ==> a.entries[a.keys[i]] == b.entries[a.keys[i]]
    ensures a == b
  {
    forall k | k in a.entries
      ensures a.entries[k] == b.entries[k]
    {
      var i :| 0 <= i < |a.keys| && a.keys[i] == k;
    }
  }

  /** `if k not in d: d[k] = init`. */
  function EnsureKey<K, V>(t: OrderedMap<K, V>, k: K, init: V): (r: OrderedMap<K, V>)
    ensures k in r.entries
  {
    if k in t.entries then t else OrderedMap(t.keys + [k], t.entries[k := init])
  }

  /** `d[k] = step(d[k], x)`. */
  function Update<K, V, T>(t: OrderedMap<K, V>, k: K, step: (V, T) -> V, x: T): OrderedMap<K, V>
    requires k in t.entries
  {
    OrderedMap(t.keys, t.entries[k := step(t.entries[k], x)])
  }

  /** Folding one more element into its group keeps the aggregate exact. */
  lemma {:induction false} AggregatesStep<T(!new), K(!new), V>(t: OrderedMap<K, V>, xs: seq<T>, key: T -> K, init: V, step: (V, T) -> V, x: T)
    requires Aggregates(t, xs, key, init, step)
    ensures Aggregates(Update(EnsureKey(t, key(x), init), key(x), step, x), xs + [x], key, init, step)
  {
    var ys := xs + [x];
    assert ys[..|ys| - 1] == xs;
    var k := key(x);
    if k !in t.entries {
      GroupOfAbsentKey(xs, key, k);
    }
    var r := Update(EnsureKey(t, k, init), k, step, x);
    forall j | j in r.entries
      ensures r.entries[j] == Fold(Group(ys, key, j), init, step)
    {
      var g := Group(xs, key, j);
      if j == k {
        assert Group(ys, key, j) == g + [x];
        assert (g + [x])[..|g|] == g;
      } else {
        assert Group(ys, key, j) == g;
      }
    }
  }

  /** The total size of the groups of the keys `ks`. */
  function SumSizes<T(!new), K(==,!new)>(xs: seq<T>, key: T -> K, ks: seq<K>): nat {
    if ks == [] then 0 else SumSizes(xs, key, ks[..|ks| - 1]) + |Group(xs, key, ks[|ks| - 1])|
  }

  lemma {:induction false} SumSizesSnoc<T(!new), K(!new)>(xs: seq<T>, key: T -> K, ks: seq<K>, x: T)
    requires Distinct(ks)
    ensures SumSizes(xs + [x], key, ks) == SumSizes(xs, key, ks) + (if key(x) in ks then 1 else 0)
  {
    var ys := xs + [x];
    assert ys[..|ys| - 1] == xs;
    if ks != [] {
      var init := ks[..|ks| - 1];
      var last := ks[|ks| - 1];
      SumSizesSnoc(xs, key, init, x);
      assert forall k :: k in ks <==> k in init || k == last;
      assert last !in init;
    }
  }

  /** Partition: the groups of the distinct keys together hold every element exactly once. */
  lemma {:induction false} Partition<T(!new), K(!new)>(xs: seq<T>, key: T -> K)
    ensures SumSizes(xs, key, KeysInOrder(xs, key)) == |xs|
  {
    if xs != [] {
      var front := xs[..|xs| - 1];
      var x := xs[|xs| - 1];
      assert xs == front + [x];
      var before := KeysInOrder(front, key);
      var after := KeysInOrder(xs, key);
      Partition(front, key);
      SumSizesSnoc(front, key, after, x);
      if key(x) !in before {
        assert after[..|after| - 1] == before;
        GroupOfAbsentKey(front, key, key(x));
      }
    }
  }

  /** The sum of `size(m[k])` over the keys `ks`. */
  function SumValues<K, V>(m: map<K, V>, ks: seq<K>, size: V -> nat): nat
    requires forall k :: k in ks ==> k in m
  {
    if ks == [] then 0 else SumValues(m, ks[..|ks| - 1], size) + size(m[ks[|ks| - 1]])
  }

  /** If each value's size is its group's size, summing the values sums the groups. */
  lemma {:induction false} SumValuesOfGroups<T(!new), K(!new), V>(m: map<K, V>, ks: seq<K>, size: V -> nat, xs: seq<T>, key: T -> K)
    requires forall k :: k in ks ==> k in m && size(m[k]) == |Group(xs, key, k)|
    ensures SumValues(m, ks, size) == SumSizes(xs, key, ks)
  {
    if ks != [] {
      SumValuesOfGroups(m, ks[..|ks| - 1], size, xs, key);
    }
  }
}
