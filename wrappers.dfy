// Optional values and fallible results, as used throughout the model for
// JavaScript's `undefined`/`null` and for thrown errors.
module Wrappers {
  datatype Option<T> = None | Some(value: T)
  {
    function UnwrapOr(fallback: T): T
    {
      match this
      case None => fallback
      case Some(v) => v
    }
  }

  datatype Result<T, E> = Success(value: T) | Failure(error: E)
  {
    predicate IsFailure()
    {
      Failure?
    }
  }
}
