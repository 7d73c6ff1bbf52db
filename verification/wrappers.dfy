/** Failure-compatible result types shared by the codec and the checksum. */
module Wrappers {

  /** A value that may be absent: a failed alphabet lookup, or an alphabet without a pad symbol. */
  datatype Option<+T> = None | Some(value: T)

  /** The outcome of an operation that the Java code lets end in an exception. */
  datatype Result<+R, +E> = Success(value: R) | Failure(error: E) {
    predicate IsFailure() {
      Failure?
    }

    function PropagateFailure<U>(): Result<U, E>
      requires Failure?
    {
      Failure(error)
    }

    function Extract(): R
      requires Success?
    {
      value
    }
  }
}
