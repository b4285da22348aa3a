/** Failure-carrying wrappers shared by the other modules. */
module Optional {

  /** A value that may be absent (JavaScript `undefined`, or a missing setting). */
  datatype Option<+T> = None | Some(value: T)

  /** Either a value or the message of an exception thrown while computing it. */
  datatype Result<+T, +E> = Success(value: T) | Failure(error: E) {

    predicate IsFailure() {
      Failure?
    }

    function PropagateFailure<U>(): Result<U, E>
      requires Failure?
    {
      Failure(error)
    }

    function Extract(): T
      requires Success?
    {
      value
    }
  }
}
