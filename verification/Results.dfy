/** Optional values and fallible results, used by every other module. */
module Results {
  datatype Option<+T> = None | Some(value: T)

  datatype Result<+T, +E> = Ok(value: T) | Err(error: E)

  /** The error kinds callers can tell apart (internal/domain/shared). */
  datatype Error =
    | NotFound
    | Conflict
    | Unauthorized
    | Invalid
    | QuotaExceeded
    | Unavailable

  /** The value under a key that may itself be missing. */
  function Lookup<K, V>(m: map<K, V>, k: Option<K>): Option<V> {
    if k.Some? && k.value in m then Some(m[k.value]) else None
  }
}
