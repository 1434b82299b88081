/** Kotlin's nullable values and the app's success/failure results. */
module Common {

  /** A Kotlin nullable value `T?`: `None` is `null`. */
  datatype Option<+T> = None | Some(value: T) {

    /** Kotlin's elvis operator `x ?: default`. */
    function GetOr(default: T): T {
      match this
      case Some(v) => v
      case None => default
    }
  }

  /** The outcome of a repository operation: a value, or the message of the
      exception the repository throws. */
  datatype Result<+T, +E> = Ok(value: T) | Err(error: E)
}
