/** Failure-carrying datatypes shared by the modules of this project. */
module Wrappers {

  /** A value that may be missing: Python's `None` or a pandas NaN. */
  datatype Option<T> = None | Some(value: T)

  /** The outcome of an operation that may raise. */
  datatype Result<T, E> = Ok(value: T) | Err(error: E)

  /** Python's `dict.get`: the entry for `k`, or `None` when `k` is not a key. */
  function Get<K, V>(m: map<K, V>, k: K): (r: Option<V>)
    ensures r.Some? <==> k in m
    ensures r.Some? ==> r.value == m[k]
  {
    if k in m then Some(m[k]) else None
  }
}
