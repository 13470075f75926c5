/** Optional values, standing in for Rust's `Option` and TypeScript's `T | null | undefined`. */
module Wrappers {

  datatype Option<+T> = None | Some(value: T) {

    /** The wrapped value, or `default` when there is none (Rust `unwrap_or`, TypeScript `??`). */
    function GetOr(default: T): T
    {
      match this
      case Some(v) => v
      case None => default
    }
  }

  /** The outcome of a call that can fail, with the error that it failed with. */
  datatype Result<+T, +E> = Success(value: T) | Failure(error: E)
}
