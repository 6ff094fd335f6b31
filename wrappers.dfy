/** Optional values: the model's rendering of TypeScript's `undefined`/`null`. */
module Wrappers {

  datatype Option<+T> = None | Some(value: T) {

    /** The value, or `default` when absent (JavaScript's `x ?? default`, `x || []`). */
    function GetOr(default: T): T {
      match this
      case Some(v) => v
      case None => default
    }
  }

  /** Success or failure of a store operation that can throw. */
  datatype Result<+T, +E> = Ok(value: T) | Err(error: E)
}
