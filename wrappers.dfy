/** Option and Result values, standing in for TypeScript's `T | null` and for thrown errors. */
module Wrappers {

  datatype Option<+T> = None | Some(value: T) {
    /** The value, or `default` when absent: TypeScript's `x ?? default`. */
    function GetOr(default: T): T {
      match this
      case Some(v) => v
      case None => default
    }
  }

  /** The settled value of a promise: either it resolved or it rejected with an error. */
  datatype Result<+R, +E> = Success(value: R) | Failure(error: E)
}
