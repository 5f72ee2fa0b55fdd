/** A value that may be missing: JavaScript's `null`/`undefined` next to a present value. */
module Optional {

  datatype Option<+T> = None | Some(value: T) {

    /** `x || fallback` for a value whose only falsy form is its absence. */
    function GetOr(fallback: T): T {
      match this
      case Some(v) => v
      case None => fallback
    }
  }
}
