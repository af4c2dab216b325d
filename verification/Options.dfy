/** The optional values shared by the other modules: a nullable column, a missing
    dictionary key, a query that returns no row. */
module Options {
  datatype Option<+T> = None | Some(value: T)

  function Lookup<K, V>(m: map<K, V>, k: K): Option<V> {
    if k in m then Some(m[k]) else None
  }
}
