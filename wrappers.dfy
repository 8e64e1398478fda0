/** Option and Result values shared by every module of the model.
    Python's `None`, TypeScript's `null` and the exception paths of the
    source become these values instead of preconditions. */
module Wrappers {

  datatype Option<+T> = None | Some(value: T) {
    /** The value, or `default` when there is none. */
    function GetOr(default: T): T {
      match this
      case Some(v) => v
      case None => default
    }
  }

  datatype Result<+T, +E> = Ok(value: T) | Err(error: E)
}
