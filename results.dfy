/** Failure-carrying values: the model's stand-in for Python exceptions. */
module Results {

  /** A value that may be absent (a dual slot before any solve, a missing operand value). */
  datatype Option<+T> = None | Some(value: T)

  /** The outcome of an operation that either produces a value or raises an error. */
  datatype Result<+T, +E> = Ok(value: T) | Err(error: E)

  /** The outcome of an operation that returns nothing but may raise an error. */
  datatype Outcome<+E> = Pass | Fail(error: E)
}
