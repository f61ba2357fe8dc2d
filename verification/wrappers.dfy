/** Failure-carrying values shared by every module of the model.
    `Option` stands for the source's `null`/`undefined`/NaN results and
    `Result` for a promise that resolves (`Success`) or rejects (`Failure`). */
module Wrappers {

  datatype Option<+T> = None | Some(value: T) {

    /** The value, or `default` when absent (JavaScript's `x ?? default`). */
    function GetOr(default: T): T {
      match this
      case Some(v) => v
      case None => default
    }
  }

  datatype Result<+T, +E> = Success(value: T) | Failure(error: E) {

    predicate IsFailure() {
      Failure?
    }
  }

  /** An awaited operation that yields no value: `Ok` resolves, `Err` rejects
      with the error's message. */
  datatype Outcome = Ok | Err(message: string)
}
