/** Shared value types: the null-able references and the synchronous
    argument faults of the framework (ArgumentNullException, ArgumentException). */
module Wrappers {

  /** A reference that may be null. */
  datatype Option<+T> = None | Some(value: T)

  /** The outcome of an operation that may throw an argument fault. */
  datatype Result<+T, +E> = Success(value: T) | Failure(error: E)

  /** The faults raised synchronously: the argument faults on misuse, and
      a NullReferenceException from a member access on null. */
  datatype Error =
    | ArgumentNull(paramName: string)
    | InvalidArgument(message: string, paramName: string)
    | NullReference
}
