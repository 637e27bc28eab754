/**
 * Python dictionaries as the machines use them: insertion-ordered, a key assigned again keeps
 * its place, `d |= e` assigns the items of `e` in order, and nested tables are merged state
 * by state.
 */
module Dicts {
  import opened Wrappers

  /** The items of a dict in insertion order. */
  type Dict<K, V> = seq<(K, V)>

  function Keys<K, V>(d: Dict<K, V>): (ks: seq<K>)
    ensures |ks| == |d|
    ensures forall i :: 0 <= i < |d| ==> ks[i] == d[i].0
  {
    seq(|d|, i requires 0 <= i < |d| => d[i].0)
  }

  /** No key occurs twice, as in every dict. */
  predicate Distinct<K(==)>(ks: seq<K>) {
    forall i, j :: 0 <= i < j < |ks| ==> ks[i] != ks[j]
  }

  /** `d.get(k)`: the value stored under `k`, if any. */
  function Get<K(==), V>(d: Dict<K, V>, k: K): (r: Option<V>)
    ensures r.Some? <==> k in Keys(d)
    ensures r.Some? ==> (k, r.value) in d
  {
    if d == [] then None
    else if d[0].0 == k then Some(d[0].1)
    else
      assert Keys(d) == [d[0].0] + Keys(d[1..]);
      Get(d[1..], k)
  }

  /** In a dict with distinct keys, each item is what its key looks up. */
  lemma {:induction false} GetAt<K, V>(d: Dict<K, V>, i: nat)
    requires Distinct(Keys(d)) && i < |d|
    ensures Get(d, d[i].0) == Some(d[i].1)
  {
    if i > 0 {
      assert d[0].0 != d[i].0 by { assert Keys(d)[0] != Keys(d)[i]; }
      assert d[1..][i - 1] == d[i];
      assert Keys(d[1..]) == Keys(d)[1..];
      GetAt(d[1..], i - 1);
    }
  }

  /** `d.get(k, default)`. */
  function GetOr<K(==), V>(d: Dict<K, V>, k: K, default: V): V {
    match Get(d, k)
    case Some(v) => v
    case None => default
  }

  /** `d[k] = v`: a key already present keeps its position, a new key goes last. */
  function Put<K(==), V>(d: Dict<K, V>, k: K, v: V): (r: Dict<K, V>)
    ensures Keys(r) == if k in Keys(d) then Keys(d) else Keys(d) + [k]
  {
    if d == [] then [(k, v)]
    else if d[0].0 == k then [(k, v)] + d[1..]
    else
      assert Keys(d) == [d[0].0] + Keys(d[1..]);
      var r := [d[0]] + Put(d[1..], k, v);
      assert Keys(r) == [d[0].0] + Keys(Put(d[1..], k, v));
      r
  }

  /** After `d[k] = v`, `k` holds `v` and every other key what it held before. */
  lemma {:induction false} GetPut<K, V>(d: Dict<K, V>, k: K, v: V, k': K)
    ensures Get(Put(d, k, v), k') == if k' == k then Some(v) else Get(d, k')
  {
    if d != [] && d[0].0 != k {
      GetPut(d[1..], k, v, k');
    }
  }

  /** Assigning a key twice is assigning it the second value. */
  lemma {:induction false} PutPut<K, V>(d: Dict<K, V>, k: K, v: V, w: V)
    ensures Put(Put(d, k, v), k, w) == Put(d, k, w)
  {
    if d != [] && d[0].0 != k {
      PutPut(d[1..], k, v, w);
    }
  }

  lemma DistinctPut<K, V>(d: Dict<K, V>, k: K, v: V)
    requires Distinct(Keys(d))
    ensures Distinct(Keys(Put(d, k, v)))
  {
  }

  /** `d |= e`: the items of `e` assigned one after another. */
  function Update<K(==), V>(d: Dict<K, V>, e: Dict<K, V>): Dict<K, V>
    decreases |e|
  {
    if e == [] then d else Put(Update(d, e[..|e| - 1]), e[|e| - 1].0, e[|e| - 1].1)
  }

  /** After `d |= e`, a key of `e` holds its value in `e`; any other key is untouched. */
  lemma {:induction false} GetUpdate<K, V>(d: Dict<K, V>, e: Dict<K, V>, k: K)
    requires Distinct(Keys(e))
    ensures Get(Update(d, e), k) == if k in Keys(e) then Get(e, k) else Get(d, k)
    decreases |e|
  {
    if e != [] {
      var init := e[..|e| - 1];
      var last := e[|e| - 1];
      DistinctSnoc(e);
      Snoc(e);
      assert Update(d, e) == Put(Update(d, init), last.0, last.1);
      GetUpdate(d, init, k);
      GetPut(Update(d, init), last.0, last.1, k);
      GetAppend(init, last, k);
      assert k in Keys(e) <==> k in Keys(init) || k == last.0;
    }
  }

  lemma {:induction false} GetAppend<K, V>(d: Dict<K, V>, item: (K, V), k: K)
    requires item.0 !in Keys(d)
    ensures Get(d + [item], k) == if k in Keys(d) then Get(d, k) else if k == item.0 then Some(item.1) else None
  {
    if d != [] {
      assert (d + [item])[1..] == d[1..] + [item];
      assert Keys(d) == [d[0].0] + Keys(d[1..]);
      GetAppend(d[1..], item, k);
    }
  }

  /** A non-empty sequence is its items but the last, then the last. */
  lemma Snoc<T>(s: seq<T>)
    requires s != []
    ensures s[..|s| - 1] + [s[|s| - 1]] == s
  {
  }

  lemma AppendSnoc<T>(a: seq<T>, s: seq<T>)
    requires s != []
    ensures (a + s[..|s| - 1]) + [s[|s| - 1]] == a + s
  {
  }

  lemma KeysSnoc<K, V>(e: Dict<K, V>)
    requires e != []
    ensures Keys(e) == Keys(e[..|e| - 1]) + [e[|e| - 1].0]
  {
  }

  /** The items before the last one of a dict with distinct keys have distinct keys, none of
      them the last key. */
  lemma DistinctSnoc<K, V>(e: Dict<K, V>)
    requires e != [] && Distinct(Keys(e))
    ensures Keys(e) == Keys(e[..|e| - 1]) + [e[|e| - 1].0]
    ensures Distinct(Keys(e[..|e| - 1])) && e[|e| - 1].0 !in Keys(e[..|e| - 1])
  {
    var init := e[..|e| - 1];
    assert Keys(e) == Keys(init) + [e[|e| - 1].0];
    forall i, j | 0 <= i < j < |init|
      ensures Keys(init)[i] != Keys(init)[j]
    {
      assert Keys(init)[i] == Keys(e)[i] && Keys(init)[j] == Keys(e)[j];
    }
    forall i | 0 <= i < |init|
      ensures Keys(init)[i] != e[|e| - 1].0
    {
      assert Keys(init)[i] == Keys(e)[i];
    }
  }

  /** Updating an empty dict with a dict copies it, order included. */
  lemma {:induction false} UpdateEmpty<K, V>(e: Dict<K, V>)
    requires Distinct(Keys(e))
    ensures Update([], e) == e
    decreases |e|
  {
    if e != [] {
      var init := e[..|e| - 1];
      assert Keys(init) == Keys(e)[..|e| - 1];
      UpdateEmpty(init);
      PutNew(init, e[|e| - 1].0, e[|e| - 1].1);
      Snoc(e);
    }
  }

  lemma {:induction false} PutNew<K, V>(d: Dict<K, V>, k: K, v: V)
    requires k !in Keys(d)
    ensures Put(d, k, v) == d + [(k, v)]
  {
    if d != [] {
      assert Keys(d) == [d[0].0] + Keys(d[1..]);
      PutNew(d[1..], k, v);
      assert [d[0]] + (d[1..] + [(k, v)]) == d + [(k, v)];
    }
  }

  /** One step of merging a nested table: `if u not in d: d[u] = {}`, then `d[u] |= row`. */
  function MergeState<K(==), L(==), V>(d: Dict<K, Dict<L, V>>, u: K, row: Dict<L, V>): Dict<K, Dict<L, V>> {
    Put(d, u, Update(GetOr(d, u, []), row))
  }

  /** Merging every state of `m` into `d`, in the order of `m`. */
  function Merge<K(==), L(==), V>(d: Dict<K, Dict<L, V>>, m: Dict<K, Dict<L, V>>): Dict<K, Dict<L, V>>
    decreases |m|
  {
    if m == [] then d else MergeState(Merge(d, m[..|m| - 1]), m[|m| - 1].0, m[|m| - 1].1)
  }

  /** A state that `m` does not have keeps its row in `d`, or stays absent. */
  lemma {:induction false} GetMergeKept<K, L, V>(d: Dict<K, Dict<L, V>>, m: Dict<K, Dict<L, V>>, u: K)
    requires Distinct(Keys(m)) && u !in Keys(m)
    ensures Get(Merge(d, m), u) == Get(d, u)
    decreases |m|
  {
    if m != [] {
      var init := m[..|m| - 1];
      var last := m[|m| - 1];
      DistinctSnoc(m);
      GetMergeKept(d, init, u);
      GetPut(Merge(d, init), last.0, Update(GetOr(Merge(d, init), last.0, []), last.1), u);
    }
  }

  /** A state that only `m` has gets `m`'s row. */
  lemma {:induction false} GetMergeNew<K, L, V>(d: Dict<K, Dict<L, V>>, m: Dict<K, Dict<L, V>>, u: K)
    requires Distinct(Keys(m))
    requires forall i :: 0 <= i < |m| ==> Distinct(Keys(m[i].1))
    requires u in Keys(m) && u !in Keys(d)
    ensures Get(Merge(d, m), u) == Get(m, u)
    decreases |m|
  {
    var init := m[..|m| - 1];
    var last := m[|m| - 1];
    DistinctSnoc(m);
    var prev := Merge(d, init);
    assert Merge(d, m) == Put(prev, last.0, Update(GetOr(prev, last.0, []), last.1));
    GetPut(prev, last.0, Update(GetOr(prev, last.0, []), last.1), u);
    GetAppend(init, last, u);
    Snoc(m);
    if u == last.0 {
      GetMergeKept(d, init, u);
      UpdateEmpty(last.1);
    } else {
      GetMergeNew(d, init, u);
    }
  }

  /** The states of a merge: those of `d`, then the new states of `m` in their order. */
  lemma {:induction false} KeysMerge<K, L, V>(d: Dict<K, Dict<L, V>>, m: Dict<K, Dict<L, V>>)
    ensures Keys(Merge(d, m)) == Keys(d) + NewKeys(Keys(d), Keys(m))
    decreases |m|
  {
    if m != [] {
      var init := m[..|m| - 1];
      var last := m[|m| - 1];
      KeysSnoc(m);
      KeysMerge(d, init);
      NewKeysSnoc(Keys(d), Keys(init), last.0);
    }
  }

  /** The keys of `ks` that are not in `known`, each once, in order of first occurrence. */
  function NewKeys<K(==)>(known: seq<K>, ks: seq<K>): seq<K>
    decreases |ks|
  {
    if ks == [] then []
    else
      var prev := NewKeys(known, ks[..|ks| - 1]);
      var k := ks[|ks| - 1];
      if k in known || k in prev then prev else prev + [k]
  }

  lemma NewKeysSnoc<K>(known: seq<K>, ks: seq<K>, k: K)
    ensures NewKeys(known, ks + [k]) == var prev := NewKeys(known, ks); if k in known || k in prev then prev else prev + [k]
  {
    assert (ks + [k])[..|ks|] == ks;
  }

  lemma KeysAppend<K, V>(a: Dict<K, V>, b: Dict<K, V>)
    ensures Keys(a + b) == Keys(a) + Keys(b)
  {
  }

  /** Merging a table whose states are all new appends it: every new state is created empty and
      then updated with its row, which copies the row. */
  lemma {:induction false} MergeFresh<K, L, V>(d: Dict<K, Dict<L, V>>, m: Dict<K, Dict<L, V>>)
    requires Distinct(Keys(m)) && forall i :: 0 <= i < |m| ==> m[i].0 !in Keys(d)
    requires forall i :: 0 <= i < |m| ==> Distinct(Keys(m[i].1))
    ensures Merge(d, m) == d + m
    decreases |m|
  {
    if m != [] {
      var init := m[..|m| - 1];
      var last := m[|m| - 1];
      DistinctSnoc(m);
      forall i | 0 <= i < |init|
        ensures init[i].0 !in Keys(d) && Distinct(Keys(init[i].1))
      {
        assert init[i] == m[i];
      }
      MergeFresh(d, init);
      var before := d + init;
      assert Merge(d, m) == MergeState(before, last.0, last.1);
      KeysAppend(d, init);
      assert last.0 !in Keys(before);
      assert GetOr(before, last.0, []) == [];
      UpdateEmpty(last.1);
      PutNew(before, last.0, last.1);
      AppendSnoc(d, m);
    }
  }

  /** Merging one more state is one more merge step. */
  lemma MergeSnoc<K, L, V>(d: Dict<K, Dict<L, V>>, m: Dict<K, Dict<L, V>>, i: nat)
    requires i < |m|
    ensures Merge(d, m[..i + 1]) == MergeState(Merge(d, m[..i]), m[i].0, m[i].1)
  {
    assert m[..i + 1][..i] == m[..i];
  }

  /** The builders' merge loop: `for u in m: if u not in d: d[u] = {}; d[u] |= m[u]`. */
  method MergeRows<K(==), L(==), V>(d: Dict<K, Dict<L, V>>, m: Dict<K, Dict<L, V>>) returns (r: Dict<K, Dict<L, V>>)
    ensures r == Merge(d, m)
  {
    r := d;
    var i := 0;
    while i < |m|
      invariant 0 <= i <= |m|
      invariant r == Merge(d, m[..i])
    {
      var (u, row) := m[i];
      ghost var prev := r;
      if u !in Keys(r) {
        r := Put(r, u, []);
        GetPut(prev, u, [], u);
        PutPut(prev, u, [], Update(GetOr(r, u, []), row));
      }
      r := Put(r, u, Update(GetOr(r, u, []), row));
      MergeSnoc(d, m, i);
      i := i + 1;
    }
    assert m[..|m|] == m;
  }
}
