/** Failure-compatible result types, and the Python exceptions the harness can raise. */
module Wrappers {

  datatype Option<+T> = None | Some(value: T)

  /** A value or the exception that interrupted its computation. */
  datatype Result<+R, +E> = Success(value: R) | Failure(error: E) {
    predicate IsFailure() { Failure? }

    function PropagateFailure<U>(): Result<U, E>
      requires Failure?
    {
      Failure(error)
    }

    function Extract(): R
      requires Success?
    {
      value
    }
  }

  /** The completion of a statement with no value: normal, or by an exception. */
  datatype Outcome<+E> = Completed | Raised(error: E) {
    predicate IsFailure() { Raised? }

    function PropagateFailure(): Outcome<E>
      requires Raised?
    {
      this
    }
  }

  /** The Python exceptions that the modelled code lets escape. */
  datatype PyError =
    | ValueError       // int() of a non-number, or too few fields to unpack
    | IndexError       // subscript past the end of a list
    | ZeroDivisionError
    | OSError(errno: int)  // a failed read other than EAGAIN
    | AttributeError   // an attribute read before anything assigned it
}
