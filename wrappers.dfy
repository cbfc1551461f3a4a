/** Option, Result and Outcome: the failure-compatible wrappers every stage uses
    to model the exceptions of the compiler (ParserError, SemanticError,
    ValueError, RuntimeErrorMiniQuery) as values. */
module Wrappers {

  datatype Option<+T> = None | Some(value: T) {
    predicate IsFailure() { None? }

    function PropagateFailure<U>(): Option<U>
      requires None?
    {
      None
    }

    function Extract(): T
      requires Some?
    {
      value
    }
  }

  datatype Result<+T, +E> = Success(value: T) | Failure(error: E) {
    predicate IsFailure() { Failure? }

    function PropagateFailure<U>(): Result<U, E>
      requires Failure?
    {
      Failure(error)
    }

    function Extract(): T
      requires Success?
    {
      value
    }
  }

  /** The result of a Python method that returns None or raises. */
  datatype Outcome<+E> = Pass | Fail(error: E)
}
