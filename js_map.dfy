/** The JavaScript `Map` as the source uses it: a key/value store that
    remembers the order in which keys were first inserted.  `set` on an
    existing key replaces the value and keeps the key's position; `delete`
    removes the key; `keys()`, `values()` and `entries()` iterate in
    insertion order. */
module JsMap {
  import opened Wrappers

  /** No key occurs twice in `ks`. */
  ghost predicate Distinct(ks: seq<string>) {
    forall i, j :: 0 <= i < j < |ks| ==> ks[i] != ks[j]
  }

  /** `ks` without the element `k`, order otherwise kept. */
  function Without(ks: seq<string>, k: string): (r: seq<string>)
    ensures forall x :: x in r <==> x in ks && x != k
    ensures Distinct(ks) ==> Distinct(r)
    ensures k !in ks ==> r == ks
  {
    if ks == [] then []
    else if ks[0] == k then Without(ks[1..], k)
    else
      var rest := Without(ks[1..], k);
      assert Distinct(ks) ==> ks[0] !in ks[1..];
      [ks[0]] + rest
  }

  datatype OrderedMap<V> = OrderedMap(keys: seq<string>, entries: map<string, V>) {

    /** The key order lists every key of the store exactly once. */
    ghost predicate Valid() {
      && Distinct(keys)
      && (forall k :: k in entries <==> k in keys)
    }

    /** `map.has(k)`. */
    predicate Has(k: string) {
      k in entries
    }

    /** `map.get(k)`: the stored value, or `undefined`. */
    function Get(k: string): (r: Option<V>)
      ensures r.Some? <==> k in entries
      ensures r.Some? ==> r.value == entries[k]
    {
      if k in entries then Some(entries[k]) else None
    }

    /** `map.set(k, v)`. */
    function Set(k: string, v: V): (m: OrderedMap<V>)
      requires Valid()
      ensures m.Valid()
      ensures m.entries == entries[k := v]
      ensures m.keys == if k in entries then keys else keys + [k]
    {
      OrderedMap(if k in entries then keys else keys + [k], entries[k := v])
    }

    /** `map.delete(k)`. */
    function Delete(k: string): (m: OrderedMap<V>)
      requires Valid()
      ensures m.Valid()
      ensures m.entries == entries - {k}
      ensures k !in entries ==> m == this
      ensures forall x :: x in m.keys <==> x in keys && x != k
    {
      OrderedMap(Without(keys, k), entries - {k})
    }

    /** `Array.from(map.values())`: the values in key order. */
    function Values(): (vs: seq<V>)
      requires Valid()
      ensures |vs| == |keys|
      ensures forall i :: 0 <= i < |keys| ==> vs[i] == entries[keys[i]]
    {
      seq(|keys|, i requires 0 <= i < |keys| => entries[keys[i]])
    }
  }

  /** `new Map()`. */
  function Empty<V>(): (m: OrderedMap<V>)
    ensures m.Valid() && m.entries == map[] && m.keys == []
  {
    OrderedMap([], map[])
  }

  /** The map obtained by `set`-ing each pair of `ps` in turn, as
      `new Map(pairs)` and a loop of `set` calls both do. */
  function FromPairs<V>(ps: seq<(string, V)>): (m: OrderedMap<V>)
    ensures m.Valid()
  {
    if ps == [] then Empty() else FromPairs(ps[..|ps| - 1]).Set(ps[|ps| - 1].0, ps[|ps| - 1].1)
  }

  /** Index `i` holds the last pair of `ps` whose key is `k`. */
  ghost predicate LastWithKey<V>(ps: seq<(string, V)>, k: string, i: int) {
    0 <= i < |ps| && ps[i].0 == k && forall j :: i < j < |ps| ==> ps[j].0 != k
  }

  /** After inserting the pairs in order, a key is present exactly when some
      pair carries it, and it holds the value of the LAST such pair: a later
      duplicate replaces an earlier one. */
  lemma {:induction false} FromPairsLastWins<V>(ps: seq<(string, V)>, k: string)
    ensures k in FromPairs(ps).entries <==> exists i :: 0 <= i < |ps| && ps[i].0 == k
    ensures forall i :: LastWithKey(ps, k, i) ==> FromPairs(ps).entries[k] == ps[i].1
  {
    if ps != [] {
      var init := ps[..|ps| - 1];
      FromPairsLastWins(init, k);
      forall i | 0 <= i < |init| && init[i].0 == k ensures ps[i].0 == k { }
      forall i | 0 <= i < |ps| - 1 && ps[i].0 == k ensures init[i].0 == k { }
      forall i | LastWithKey(ps, k, i) && i < |ps| - 1 ensures LastWithKey(init, k, i) { }
    }
  }

  /** Inserting `n` pairs yields at most `n` keys, one per distinct key. */
  lemma {:induction false} FromPairsKeyCount<V>(ps: seq<(string, V)>)
    ensures |FromPairs(ps).keys| <= |ps|
    ensures |FromPairs(ps).keys| == |FromPairs(ps).entries.Keys|
  {
    if ps != [] {
      FromPairsKeyCount(ps[..|ps| - 1]);
    }
    DistinctKeysCount(FromPairs(ps));
  }

  /** In a valid map the key order has as many elements as the store has keys. */
  lemma DistinctKeysCount<V>(m: OrderedMap<V>)
    requires m.Valid()
    ensures |m.keys| == |m.entries.Keys|
  {
    DistinctSeqCard(m.keys);
    assert m.entries.Keys == set k | k in m.keys;
  }

  lemma {:induction false} DistinctSeqCard(ks: seq<string>)
    requires Distinct(ks)
    ensures |set k | k in ks| == |ks|
  {
    if ks != [] {
      var tail := ks[1..];
      DistinctSeqCard(tail);
      assert (set k | k in ks) == (set k | k in tail) + {ks[0]};
      assert ks[0] !in tail;
    }
  }
}
