/** Small helpers shared by every stage: an optional value and dictionary look-ups with a default. */
module Wrappers {

  datatype Option<+T> = None | Some(value: T)

  /** Python's `d.get(k)`: the value under `k`, or None when `k` is missing. */
  function Get<K, V>(m: map<K, V>, k: K): (r: Option<V>)
    ensures r.Some? <==> k in m
    ensures r.Some? ==> r.value == m[k]
  {
    if k in m then Some(m[k]) else None
  }

  /** Python's `d.get(k, default)`. */
  function GetOr<K, V>(m: map<K, V>, k: K, default: V): (r: V)
    ensures k in m ==> r == m[k]
    ensures k !in m ==> r == default
  {
    if k in m then m[k] else default
  }
}
