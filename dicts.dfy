/** Python's `dict` with string keys: a map together with the order in which
    its keys were first inserted, which is the order Python iterates in. */
module Dicts {
  import opened Common

  predicate NoDuplicates<T(==)>(s: seq<T>) {
    forall i, j | 0 <= i < j < |s| :: s[i] != s[j]
  }

  datatype Dict<V> = Dict(keys: seq<string>, entries: map<string, V>) {
    /** Every key occurs once in `keys`, and `keys` lists exactly the entries. */
    predicate Valid() {
      && NoDuplicates(keys)
      && (forall i | 0 <= i < |keys| :: keys[i] in entries)
      && (forall k | k in entries :: k in keys)
    }

    function Get(k: string): Option<V> {
      if k in entries then Some(entries[k]) else None
    }

    /** `d[k] = v`: a new key goes to the end; an existing key keeps its place. */
    function Put(k: string, v: V): (d: Dict<V>)
      requires Valid()
      ensures d.Valid()
      ensures d.entries == entries[k := v]
      ensures k in entries ==> d.keys == keys
      ensures k !in entries ==> d.keys == keys + [k]
    {
      if k in entries then Dict(keys, entries[k := v]) else Dict(keys + [k], entries[k := v])
    }
  }

  function EmptyDict<V>(): (d: Dict<V>)
    ensures d.Valid() && d.keys == [] && d.entries == map[]
  {
    Dict([], map[])
  }

  /** The keyword arguments of a tool: a dict from parameter name to value. */
  type Arguments = d: Dict<Value> | d.Valid() && forall k | k in d.entries :: d.entries[k].WellFormed()
    witness Dict([], map[])
}
