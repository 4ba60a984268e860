/** The nullable values of the JavaScript source: `null` / `undefined` become None. */
module Optional {

  datatype Option<+T> = None | Some(value: T) {

    /** `x || fallback` for a value whose only falsy state is absence. */
    function GetOr(fallback: T): T {
      match this
      case Some(v) => v
      case None => fallback
    }
  }
}
