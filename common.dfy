/** Values that may be absent and outcomes that may fail, shared by every module. */
module Common {

  /** A value that may be missing: an absent JSON field, a SQL NULL, an empty form input. */
  datatype Option<+T> = None | Some(value: T) {
    function GetOr(default: T): T {
      match this
      case Some(v) => v
      case None => default
    }
  }

  /** The outcome of a request handler: a value, or the error it answers with. */
  datatype Result<+T, +E> = Success(value: T) | Failure(error: E)

  /** The outcome of a handler whose success carries no value. */
  datatype Outcome<+E> = Pass | Fail(error: E)
}
