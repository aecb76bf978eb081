/** JavaScript's `undefined` as an option value, and immutable.js `Map.get`. */
module Options {

  /** `None` stands for `undefined`: "not loaded" or "not applicable". */
  datatype Option<+T> = None | Some(value: T)

  /** `m.get(k)`: the entry for `k`, or `undefined` when there is none. */
  function Get<K, V>(m: map<K, V>, k: K): (r: Option<V>)
    ensures r.Some? <==> k in m
    ensures r.Some? ==> r.value == m[k]
  {
    if k in m then Some(m[k]) else None
  }
}
