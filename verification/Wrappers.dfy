/** Results of calls that can fail, and the lookup in Go maps of strings. */
module Wrappers {
  datatype Option<+T> = None | Some(value: T)

  /** How a call of the operator ends: with a value, with an error, or in a panic. */
  datatype Result<+T> = Ok(value: T) | Error | Panic

  /** Indexing a Go map of strings: the empty string when the key is absent. */
  function Indexed<K>(m: map<K, string>, key: K): string {
    if key in m then m[key] else ""
  }
}
