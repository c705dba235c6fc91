/** A value that may be absent: JavaScript's `null`/`undefined` next to a value. */
module Optional {
  datatype Option<T> = None | Some(value: T) {
    /** `x || fallback` for a value that is truthy whenever present. */
    function GetOr(fallback: T): T
    {
      match this
      case Some(v) => v
      case None => fallback
    }
  }
}
