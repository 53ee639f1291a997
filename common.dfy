/** Small shared vocabulary: an optional value and an opaque handle. */
module Common {

  /** A value that may be absent (JavaScript `null`/`undefined`). */
  datatype Option<+T> = None | Some(value: T)

  /** An opaque handle for an object the program creates or is handed:
      a three.js object, a DOM element, an observer, a timer or an
      animation-frame request id. Only identity matters. */
  datatype Token = Token(handle: nat)

  /** The value stored under `k`, if any (JavaScript `Map.get`). */
  function Get<K, V>(m: map<K, V>, k: K): (r: Option<V>)
    ensures r.Some? <==> k in m
    ensures r.Some? ==> r.value == m[k]
  {
    if k in m then Some(m[k]) else None
  }

  /** A strict inequality between multiples of a positive number holds
      between the factors. */
  lemma LtCancel(a: int, b: int, c: int)
    requires c > 0 && a * c < b * c
    ensures a < b
  {
  }
}
