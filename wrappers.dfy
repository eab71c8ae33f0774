/**
 * Option and Result, and the Python exceptions the lesson generator's core
 * raises or lets through.  A raised exception is modelled as a `Failure`
 * carrying one of these values.
 */
module Wrappers {

  datatype Option<+T> = None | Some(value: T) {
    predicate IsFailure() {
      None?
    }

    function PropagateFailure<U>(): Option<U>
      requires None?
    {
      None
    }

    function Extract(): T
      requires Some?
    {
      value
    }

    /** `d.get(key, default)` on a key that may be missing. */
    function GetOr(default: T): T {
      if Some? then value else default
    }
  }

  datatype Result<+R, +E> = Success(value: R) | Failure(error: E) {
    predicate IsFailure() {
      Failure?
    }

    function PropagateFailure<U>(): Result<U, E>
      requires Failure?
    {
      Failure(error)
    }

    function Extract(): R
      requires Success?
    {
      value
    }
  }

  /** The Python exceptions that cross the core's boundaries, each with its message. */
  datatype Exception =
    | KeyError(message: string)
    | FileExistsError(message: string)
    | NotADirectoryError(message: string)
    | IsADirectoryError(message: string)
    | ValidationError(message: string)
}
