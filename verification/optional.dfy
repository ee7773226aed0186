/** The absent-or-present value the source writes as `None` or an object. */
module Optional {

  datatype Option<+T> = None | Some(value: T)

  /** Dictionary lookup with a missing key reading as `None`, like `dict.get`. */
  function Get<K, V>(m: map<K, V>, k: K): (r: Option<V>)
    ensures r.Some? <==> k in m
    ensures r.Some? ==> r.value == m[k]
  {
    if k in m then Some(m[k]) else None
  }
}
