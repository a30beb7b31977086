/** Optional values, and the outcome of an operation that may throw one of
    the .NET exceptions the modelled code can raise. */
module Wrappers {

  datatype Option<+T> = None | Some(value: T)

  /** The .NET exceptions the modelled code throws, named by their cause. */
  datatype Exception =
    | NullReference          // a member read through a null reference
    | IndexOutOfRange        // an array or list index outside its bounds
    | KeyNotFound            // a dictionary lookup of an absent key
    | DuplicateKey           // Dictionary.Add of a key already present
    | FormatError            // int.Parse of a string that is not an integer
    | Overflow               // a checked conversion outside the target range
    | UnexpectedTag(tag: string)  // the level reader's own "Unexpected tag" exception

  datatype Result<+T> = Success(value: T) | Failure(error: Exception)
  {
    predicate IsFailure() {
      Failure?
    }

    function PropagateFailure<U>(): Result<U>
      requires Failure?
    {
      Failure(error)
    }

    function Extract(): T
      requires Success?
    {
      value
    }
  }

  datatype Outcome = Pass | Fail(error: Exception)

  function Min(a: int, b: int): int { if a <= b then a else b }

  function Max(a: int, b: int): int { if a <= b then b else a }
}
