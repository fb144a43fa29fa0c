/**
 * Python dictionaries keep their keys in insertion order: a new key goes to
 * the end, an update of an existing key keeps its place.  `Dict` models that:
 * a map together with the order in which its keys were first inserted.
 */
module Dicts {

  datatype Dict<V> = Dict(keys: seq<string>, values: map<string, V>) {

    /** The key sequence lists every key of the map exactly once. */
    ghost predicate Valid() {
      && (forall i, j :: 0 <= i < j < |keys| ==> keys[i] != keys[j])
      && (forall k :: k in values <==> k in keys)
    }

    /** `d[k] = v`: the value is replaced in place, or appended as a new key. */
    function Put(k: string, v: V): (d: Dict<V>)
      ensures d.values == values[k := v]
      ensures k in values ==> d.keys == keys
      ensures k !in values ==> d.keys == keys + [k]
    {
      if k in values then Dict(keys, values[k := v]) else Dict(keys + [k], values[k := v])
    }

    /** `d[k] = v` keeps every key listed exactly once. */
    lemma PutValid(k: string, v: V)
      requires Valid()
      ensures Put(k, v).Valid()
    {
    }

    /** Writing a key twice leaves only the second value. */
    lemma PutPut(k: string, v1: V, v2: V)
      ensures Put(k, v1).Put(k, v2) == Put(k, v2)
    {
      assert values[k := v1][k := v2] == values[k := v2];
    }

    /** `d.get(k, default)` */
    function Get(k: string, default: V): V {
      if k in values then values[k] else default
    }

    /** The values in key order, as `d.values()` iterates them. */
    function Values(): (vs: seq<V>)
      requires Valid()
      ensures |vs| == |keys|
      ensures forall i :: 0 <= i < |keys| ==> vs[i] == values[keys[i]]
    {
      seq(|keys|, i requires 0 <= i < |keys| => values[keys[i]])
    }
  }

  /** `{}` */
  function Empty<V>(): (d: Dict<V>)
    ensures d.Valid() && d.keys == [] && d.values == map[]
  {
    Dict([], map[])
  }
}
