/** Option and Result values standing in for C#'s null references and thrown exceptions. */
module Wrappers {

  /** A value that may be absent (a null reference in the C# code). */
  datatype Option<+T> = None | Some(value: T)

  /** Either a value or the error the C# code throws instead of returning one. */
  datatype Result<+T, +E> = Ok(value: T) | Err(error: E)
}
