/** Shared vocabulary: optional values and the view of a Python dictionary at one key. */
module Basics {
  datatype Option<+T> = None | Some(value: T)

  /** `d.get(k)`. */
  function Get<K, V>(m: map<K, V>, k: K): Option<V> {
    if k in m then Some(m[k]) else None
  }

  /** `d[k] = v`, or `del d[k]` when there is no value. */
  function Set<K, V>(m: map<K, V>, k: K, v: Option<V>): map<K, V> {
    match v
    case None => m - {k}
    case Some(x) => m[k := x]
  }

  function Max(a: int, b: int): int {
    if a < b then b else a
  }
}
