/** Option and Result, and the Kotlin exceptions the modelled code can raise. */
module Wrappers {

  datatype Option<+T> = None | Some(value: T) {
    /** Kotlin's `?:` on a nullable value. */
    function GetOr(default: T): T {
      match this
      case Some(v) => v
      case None => default
    }
  }

  /** The exceptions thrown by the modelled code, by their Kotlin class. */
  datatype KotlinError =
    | IllegalArgument(message: string)      // `require(...)` and `throw IllegalArgumentException`
    | IllegalState(message: string)         // `check(...)`
    | IndexOutOfBounds(index: int)          // list access outside 0..lastIndex
    | UnsupportedOperation(message: string) // `throw UnsupportedOperationException`

  datatype Result<+T> = Success(value: T) | Failure(error: KotlinError) {
    predicate IsFailure() { Failure? }
    function PropagateFailure<U>(): Result<U>
      requires Failure?
    {
      Failure(error)
    }
    function Extract(): T
      requires Success?
    {
      value
    }
  }

  /** A Result with no value: either it passed or it carries the exception thrown. */
  datatype Outcome = Pass | Fail(error: KotlinError)
}
