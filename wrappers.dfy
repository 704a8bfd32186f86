/** Optional values and two-way outcomes shared by every module of the model. */
module Wrappers {

  /** A value that may be absent: SQL NULL, a JavaScript `undefined`, an empty query result. */
  datatype Option<+T> = None | Some(value: T) {
    function GetOr(default: T): T {
      match this
      case Some(v) => v
      case None => default
    }
  }

  /** The outcome of an operation that either yields a value or fails with an error. */
  datatype Result<+R, +E> = Ok(value: R) | Err(error: E)

  /** One field of a partial update: left as it is, or overwritten with a new value. */
  datatype Patch<+T> = Keep | Put(value: T) {
    function ApplyTo(current: T): T {
      match this
      case Keep => current
      case Put(v) => v
    }
  }
}
