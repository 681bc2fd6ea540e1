/** A Python `dict`: a map whose keys remember the order in which they were first inserted. */
module Dicts {
  import opened Lists

  datatype Dict<K(==), V> = Dict(keys: seq<K>, values: map<K, V>) {

    /** Keys are listed once each, and exactly the keys of the map are listed. */
    ghost predicate Valid() {
      Distinct(keys) && values.Keys == set k | k in keys
    }

    /** `d.get(k, default)`. */
    function Get(k: K, default: V): V {
      if k in values then values[k] else default
    }

    /** `d[k] = v`: an existing key keeps its position; a new key goes last. */
    function Put(k: K, v: V): (d: Dict<K, V>)
      ensures Valid() ==> d.Valid()
      ensures d.values == values[k := v]
      ensures d.keys == if k in values then keys else keys + [k]
    {
      if k in values then Dict(keys, values[k := v]) else Dict(keys + [k], values[k := v])
    }

    /** `list(d.items())`, in key order. */
    function Items(): (items: seq<(K, V)>)
      requires Valid()
      ensures |items| == |keys|
      ensures forall i :: 0 <= i < |keys| ==> items[i] == (keys[i], values[keys[i]])
      ensures forall i, j :: 0 <= i < j < |items| ==> items[i].0 != items[j].0
    {
      seq(|keys|, i requires 0 <= i < |keys| => (keys[i], values[keys[i]]))
    }
  }

  function EmptyDict<K(==), V>(): (d: Dict<K, V>)
    ensures d.Valid() && d.keys == []
  {
    Dict([], map[])
  }
}
