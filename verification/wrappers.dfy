/** Failure-carrying results for the query generator and the errors it raises. */
module Wrappers {

  /** The optional value of a configuration field. */
  datatype Option<+T> = None | Some(value: T)

  /** The causes of the exceptions the generator lets escape, one per cause. */
  datatype Error =
    | NonPositiveLength   // the configuration validator rejected a total length T <= 0
    | TooSmallForTokens   // T cannot hold the subject, the relation and the linking word
    | EmptyRange          // an integer draw was asked for an empty inclusive range
    | ServiceFailure      // the text-generation service did not produce an answer

  /** Either a value or the error that stopped the computation; usable with `:-`. */
  datatype Result<+T> = Success(value: T) | Failure(error: Error) {

    predicate IsFailure() {
      Failure?
    }

    function PropagateFailure<U>(): Result<U>
      requires Failure?
    {
      Failure(error)
    }

    function Extract(): T
      requires Success?
    {
      value
    }
  }
}
