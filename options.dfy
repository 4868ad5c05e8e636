/** The optional value used by the lookups and parsers of this model. */
module Options {

  datatype Option<+T> = None | Some(value: T)

  /** The value a map holds for a key, if any. */
  function Lookup<K, V>(m: map<K, V>, k: K): Option<V>
  {
    if k in m then Some(m[k]) else None
  }
}
