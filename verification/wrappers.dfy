/** Optional values and success-or-failure results shared by the whole model.
    `Option` stands for a TypeScript value that may be `undefined`; `Result`
    stands for a computation that either returns or throws an `Error` whose
    message is the `Err` payload. */
module Wrappers {

  datatype Option<+T> = None | Some(value: T) {

    /** The wrapped value, or `default` when there is none (TypeScript `??`). */
    function GetOr(default: T): T {
      match this
      case Some(v) => v
      case None => default
    }
  }

  datatype Result<+T> = Ok(value: T) | Err(message: string)
}
