/** Option and Result, used for the C# null reference and for thrown exceptions. */
module Wrappers {

  /** `Null` stands for a C# null reference. */
  datatype Option<+T> = Null | Some(value: T)

  /** `Failure` stands for an exception thrown by the operation. */
  datatype Result<+R, +E> = Success(value: R) | Failure(error: E)
}
