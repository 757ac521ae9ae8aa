/** Small shared vocabulary: optional values, fallible results and Go's nil-tolerant map reads. */
module Wrappers {

  datatype Option<+T> = None | Some(value: T)

  /** A value or the text of a Go `error`. */
  datatype Outcome<+T> = Ok(value: T) | Err(error: string)

  /** Reading a Go map: a missing key yields the zero value (nil slice, nil map). */
  function Lookup<K, V>(m: map<K, V>, k: K, zero: V): V
  {
    if k in m then m[k] else zero
  }

  /** The errors held by an optional error, as a list of at most one entry. */
  function ErrorList(e: Option<string>): seq<string>
  {
    match e
    case None => []
    case Some(msg) => [msg]
  }
}
