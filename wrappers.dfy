/** The optional value used for absent map entries and for "no reply". */
module Wrappers {
  datatype Option<+T> = None | Some(value: T)

  /** Looks a key up in a map, as a JavaScript object property read that may be undefined. */
  function Lookup<K, V>(m: map<K, V>, k: K): (r: Option<V>)
    ensures r.Some? <==> k in m
    ensures r.Some? ==> r.value == m[k]
  {
    if k in m then Some(m[k]) else None
  }
}
