/** Failure-compatible wrappers used across the model. */
module Wrappers {

  /** `None` stands for a .NET `null` reference. */
  datatype Option<+T> = None | Some(value: T)

  /** The two kinds of exception the library raises: `ArgumentException` and `FormatException`. */
  datatype Error = ArgumentError | FormatError

  /** The value of an operation that may throw one of the exceptions above. */
  datatype Result<+T> = Ok(value: T) | Err(error: Error) {
    predicate IsFailure() { Err? }

    function PropagateFailure<U>(): Result<U>
      requires Err?
    {
      Err(error)
    }

    function Extract(): T
      requires Ok?
    {
      value
    }
  }

  /** The outcome of a `void` operation that may throw. */
  datatype Outcome = Pass | Fail(error: Error)
}
