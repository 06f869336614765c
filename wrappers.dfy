/** Go's `error` results and optional (nil-able) values. */
module Wrappers {

  /** A Go `error`: nil (Pass) or an error carrying its message. */
  datatype Outcome = Pass | Fail(error: string)

  /** A Go `(T, error)` pair where the value only matters when the error is nil. */
  datatype Result<T> = Ok(value: T) | Err(error: string)

  /** A Go pointer or map that may be nil. */
  datatype Option<T> = None | Some(value: T)

  /** Reading a Go `map[string]string`: a missing key (or a nil map) reads as "". */
  function Lookup(m: map<string, string>, key: string): (v: string)
    ensures key in m ==> v == m[key]
    ensures key !in m ==> v == ""
  {
    if key in m then m[key] else ""
  }
}
