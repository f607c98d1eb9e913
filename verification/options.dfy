/** The optional-value wrapper used throughout the model. */
module Options {

  /** A value that may be missing, in place of Go's `value, ok` pairs. */
  datatype Option<+T> = None | Some(value: T) {

    /** The wrapped value, or `default` when there is none. */
    function GetOr(default: T): T {
      match this
      case Some(v) => v
      case None => default
    }
  }
}
