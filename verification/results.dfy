/** Failure-compatible wrappers: a nullable reference becomes an Option,
  * an operation that can throw becomes a Result carrying the exception. */
module Results {

  datatype Option<+T> = None | Some(value: T)

  /** The Java runtime exceptions the printer can raise on malformed input. */
  datatype JavaException =
    | StringIndexOutOfBounds
    | NullPointer
    | NumberFormat
    | ArrayIndexOutOfBounds

  datatype Result<+R> = Success(value: R) | Failure(error: JavaException) {
    predicate IsFailure() {
      Failure?
    }

    function PropagateFailure<U>(): Result<U>
      requires Failure?
    {
      Failure(error)
    }

    function Extract(): R
      requires Success?
    {
      value
    }
  }
}
