/** Failure-compatible wrappers shared by the whole project. */
module Base {
  /** A Go value that may be nil: a nil map or slice is `None`, an empty one is `Some` of empty. */
  datatype Option<+T> = None | Some(value: T) {
    predicate IsFailure() { None? }
    function PropagateFailure<U>(): Option<U>
      requires None?
    {
      None
    }
    function Extract(): T
      requires Some?
    {
      value
    }
  }

  /** A Go `(value, error)` pair of which exactly one half is meaningful. */
  datatype Result<+T> = Ok(value: T) | Err(message: string)

  type Conf = map<string, string>

  /** What ranging over, indexing or measuring a possibly nil map sees. */
  function Entries(m: Option<Conf>): Conf {
    if m.Some? then m.value else map[]
  }

  /** Go's `m[k]`: the zero value when the key is missing. */
  function At(m: Conf, k: string): string {
    if k in m then m[k] else ""
  }
}
