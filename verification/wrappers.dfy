/** Option and Result datatypes shared by the cron modules. */
module Wrappers {

  /** An optional value: a record attribute that may be unset. */
  datatype Option<+T> = None | Some(value: T)

  /** The outcome of an operation that either returns a value or raises. */
  datatype Result<+T, +E> = Success(value: T) | Failure(error: E)
}
