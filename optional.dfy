/** Nullable values and error-or-value results, as used throughout the model. */
module Optional {

  /** A value that may be absent (a C# `null` or `int?`). */
  datatype Option<T> = None | Some(value: T)

  /** The outcome of an operation that either produces a value or fails with a reason. */
  datatype Result<T, E> = Ok(value: T) | Err(error: E)
}
