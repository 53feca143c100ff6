/** Shared result types and small helpers. */
module Common {

  /** Identifiers shared by the task and usage tables. */
  type TaskId = string
  type Provider = string

  datatype Option<+T> = None | Some(value: T)

  datatype Result<+T, +E> = Ok(value: T) | Err(error: E)

  /** A keyed lookup that yields None for a missing key, as `Map.get` and a single-row SELECT do. */
  function Lookup<K, V>(m: map<K, V>, k: K): Option<V> {
    if k in m then Some(m[k]) else None
  }
}
