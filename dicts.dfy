/** A Python `dict`: a map that remembers the order in which its keys were first
    inserted. Iterating a dict visits `keys` in that order; assigning to an existing
    key keeps its place. */
module Dicts {

  datatype Dict<K(==), V> = Dict(keys: seq<K>, values: map<K, V>) {

    ghost predicate Valid() {
      (forall i, j :: 0 <= i < j < |keys| ==> keys[i] != keys[j])
      && values.Keys == set k | k in keys
    }

    /** `d[k] = v` */
    function Put(k: K, v: V): (d: Dict<K, V>)
      ensures Valid() ==> d.Valid()
      ensures d.values == values[k := v]
      ensures d.keys == if k in values then keys else keys + [k]
    {
      if k in values then Dict(keys, values[k := v]) else Dict(keys + [k], values[k := v])
    }

    /** `list(d.values())` */
    function Values(): (r: seq<V>)
      requires Valid()
      ensures |r| == |keys| && forall i :: 0 <= i < |keys| ==> r[i] == values[keys[i]]
    {
      seq(|keys|, i requires 0 <= i < |keys| => values[keys[i]])
    }

    /** Inserting a new key appends its value to `list(d.values())`. */
    lemma PutNewValues(k: K, v: V)
      requires Valid() && k !in values
      ensures Put(k, v).Values() == Values() + [v]
    {
    }

    /** Assigning to an existing key replaces its value where it stood in
        `list(d.values())`. */
    lemma PutOldValues(k: K, v: V, i: nat)
      requires Valid() && i < |keys| && keys[i] == k
      ensures Put(k, v).Values() == Values()[i := v]
    {
    }
  }

  function Empty<K(==), V>(): (d: Dict<K, V>)
    ensures d.Valid() && d.keys == [] && d.values == map[]
  {
    Dict([], map[])
  }
}
