/**
 * A JavaScript `Map`: its entries plus the order in which their keys were first
 * inserted, which is the order `values()` iterates in. `set` on a key already
 * present replaces the value and keeps the key's position. Keys are the store's
 * string ids.
 */
module OrderedMaps {
  import opened Wrappers
  import opened Seqs

  /** The values stored under `keys`, in that order. */
  function ValuesOf<V>(keys: seq<string>, entries: map<string, V>): (vs: seq<V>)
    requires forall i :: 0 <= i < |keys| ==> keys[i] in entries
    ensures |vs| == |keys|
    ensures forall i :: 0 <= i < |keys| ==> vs[i] == entries[keys[i]]
  {
    if keys == [] then [] else [entries[keys[0]]] + ValuesOf(keys[1..], entries)
  }

  datatype OrderedMap<V> = OrderedMap(keys: seq<string>, entries: map<string, V>) {

    /** Every key is listed once, and the listed keys are exactly the stored ones. */
    ghost predicate Valid() {
      Distinct(keys) && forall k :: k in entries <==> k in keys
    }

    /** `map.get(k)`. */
    function Get(k: string): (r: Option<V>)
      ensures Valid() ==> (r.Some? <==> k in keys)
      ensures r.Some? ==> k in entries && r.value == entries[k]
    {
      if k in entries then Some(entries[k]) else None
    }

    /** `Array.from(map.values())`. */
    function Values(): (vs: seq<V>)
      requires Valid()
      ensures |vs| == |keys|
      ensures forall i :: 0 <= i < |keys| ==> vs[i] == entries[keys[i]]
    {
      ValuesOf(keys, entries)
    }

    /** `map.set(k, v)`. */
    function Set(k: string, v: V): (m: OrderedMap<V>)
      requires Valid()
      ensures m.Valid()
      ensures m.Get(k) == Some(v)
      ensures forall k' :: k' != k ==> m.Get(k') == Get(k')
    {
      var keys' := if k in entries then keys else keys + [k];
      assert k !in entries ==> Distinct(keys') by {
        if k !in entries {
          forall i, j | 0 <= i < j < |keys'| ensures keys'[i] != keys'[j] {
            if j == |keys| {
              assert keys'[i] == keys[i] && keys[i] in entries;
            } else {
              assert keys'[i] == keys[i] && keys'[j] == keys[j];
            }
          }
        }
      }
      OrderedMap(keys', entries[k := v])
    }
  }

  function Empty<V>(): (m: OrderedMap<V>)
    ensures m.Valid() && m.Values() == []
    ensures forall k :: m.Get(k) == None
  {
    OrderedMap([], map[])
  }

  /** Setting a new key appends its value to the iteration order. */
  lemma SetNewKey<V>(m: OrderedMap<V>, k: string, v: V)
    requires m.Valid() && m.Get(k) == None
    ensures m.Set(k, v).keys == m.keys + [k]
    ensures m.Set(k, v).Values() == m.Values() + [v]
  {
    var m' := m.Set(k, v);
    assert m'.keys == m.keys + [k];
    var vs := m'.Values();
    forall i | 0 <= i < |m.keys| ensures vs[i] == m.Values()[i] {
      assert m'.keys[i] == m.keys[i] && m.keys[i] in m.entries;
    }
    assert vs[|m.keys|] == v;
    assert vs == m.Values() + [v];
  }

  /** Setting a new key to the last of `items` after the others completes the listing of `items`. */
  lemma SetNewKeyExtends<V>(m: OrderedMap<V>, base: seq<V>, items: seq<V>, k: string)
    requires items != [] && m.Valid() && m.Get(k) == None
    requires m.Values() == base + items[..|items| - 1]
    ensures m.Set(k, items[|items| - 1]).Values() == base + items
  {
    var init, last := items[..|items| - 1], items[|items| - 1];
    SetNewKey(m, k, last);
    assert init + [last] == items;
    calc {
      m.Set(k, last).Values();
      m.Values() + [last];
      (base + init) + [last];
      base + (init + [last]);
    }
  }

  /** Setting a key that is present replaces its value in place and keeps the order of the others. */
  lemma SetExistingKey<V>(m: OrderedMap<V>, k: string, v: V)
    requires m.Valid() && m.Get(k).Some?
    ensures m.Set(k, v).keys == m.keys
    ensures |m.Set(k, v).Values()| == |m.Values()|
    ensures forall i :: 0 <= i < |m.keys| ==>
      m.Set(k, v).Values()[i] == if m.keys[i] == k then v else m.Values()[i]
  {
  }

  /** Every stored value is among the iterated values. */
  lemma GetInValues<V>(m: OrderedMap<V>, k: string)
    requires m.Valid() && m.Get(k).Some?
    ensures m.Get(k).value in m.Values()
  {
    var i :| 0 <= i < |m.keys| && m.keys[i] == k;
    assert m.Values()[i] == m.entries[k];
  }
}
