/** Small value types shared by the client and server models. */
module Common {

  /** A value that may be missing: JavaScript's null/undefined, Python's None. */
  datatype Option<+T> = None | Some(value: T) {

    /** The value, or `default` when there is none. */
    function GetOr(default: T): T {
      match this
      case Some(v) => v
      case None => default
    }
  }
}
