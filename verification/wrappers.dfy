/** Optional values and failure-carrying results shared by the modules of this model. */
module Wrappers {

  /** A value that may be absent: JavaScript's `undefined`/`null`, Ruby's `nil`. */
  datatype Option<+T> = None | Some(value: T) {

    /** The value, or `default` when it is absent. */
    function GetOr(default: T): T {
      match this
      case Some(v) => v
      case None => default
    }
  }

  /** Either a computed value or the error an operation raised instead. */
  datatype Result<+R, +E> = Success(value: R) | Failure(error: E)
}
