/** Optional values and error results shared by the modules of the model. */
module Wrappers {

  /** A value that may be missing: `undefined`/`null` in the client, `None` in the backend. */
  datatype Option<+T> = None | Some(value: T) {
    /** The value, or `default` when it is missing (the `??` operator). */
    function GetOr(default: T): T {
      match this
      case Some(v) => v
      case None => default
    }
  }

  /** The outcome of a backend handler: a response body or an HTTP error. */
  datatype Result<+R, +E> = Ok(value: R) | Err(error: E)
}
