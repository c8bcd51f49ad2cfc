/** Optional values and outcomes of asynchronous requests, shared by the other modules. */
module Wrappers {

  /** A value that may be missing (TypeScript's `undefined`/`null`). */
  datatype Option<+T> = None | Some(value: T) {
    function GetOr(default: T): T {
      match this
      case Some(v) => v
      case None => default
    }
  }

  /** The outcome an HTTP observable delivers to its subscriber: a response or an error. */
  datatype Result<+T> = Ok(value: T) | Err
}
