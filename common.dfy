/** Small shared vocabulary: optional values, results with an error side, and
    Go's read of a string map, which yields "" for a missing key. */
module Common {

  datatype Option<+T> = None | Some(value: T)

  datatype Result<+T, +E> = Ok(value: T) | Err(error: E)

  /** `m[k]` on a Go `map[string]string`: the zero value "" when `k` is absent. */
  function Lookup(m: map<string, string>, k: string): string
  {
    if k in m then m[k] else ""
  }
}
