/** Outcomes of the remote services the screens call, and optional values. */
module Results {

  /** A value that may be absent (JavaScript `null`). */
  datatype Option<+T> = None | Some(value: T) {
    function GetOr(default: T): (v: T)
      ensures Some? ==> v == value
      ensures None? ==> v == default
    {
      match this
      case Some(v) => v
      case None => default
    }
  }

  /** What an awaited service call produced: a value, or a rejected promise. */
  datatype Outcome<+T> = Ok(value: T) | Err
}
