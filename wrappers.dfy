// Shared result wrappers: a C# null becomes None, a thrown exception becomes Err.
module Wrappers {
  datatype Option<+T> = None | Some(value: T)

  datatype Result<+T, +E> = Ok(value: T) | Err(error: E)

  /** A value-less success, for C# methods that return void but may throw. */
  datatype Unit = Unit
}
