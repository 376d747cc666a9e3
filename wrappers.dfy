/** Option and Result: `null` and thrown exceptions of the library, as values. */
module Wrappers {

  /** A value that may be absent (a C# `null` reference). */
  datatype Option<+T> = None | Some(value: T)

  /** Either a returned value or a thrown exception. */
  datatype Result<+R, +E> = Success(value: R) | Failure(error: E)
}
