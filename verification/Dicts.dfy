/** Python dictionaries: maps that remember the order in which keys were first entered. */
module Dicts {

  datatype Dict<K(==), V> = Dict(keys: seq<K>, at: map<K, V>)

  ghost predicate Valid<K(!new), V>(d: Dict<K, V>) {
    && (forall i, j :: 0 <= i < j < |d.keys| ==> d.keys[i] != d.keys[j])
    && (forall k :: k in d.keys <==> k in d.at)
  }

  /** `d[k] = v` */
  function Put<K(!new), V>(d: Dict<K, V>, k: K, v: V): (r: Dict<K, V>)
    ensures Valid(d) ==> Valid(r)
  {
    Dict(if k in d.at then d.keys else d.keys + [k], d.at[k := v])
  }

  /** `d.get(k, default)` */
  function Get<K, V>(d: Dict<K, V>, k: K, default: V): V {
    if k in d.at then d.at[k] else default
  }
}
