/** Value types for absent values and for calls that fail, shared by the gateway and the key-value store. */
module Wrappers {

  /** An optional value: Java's `Optional` and nullable references. */
  datatype Option<T> = None | Some(value: T)

  /** A value or an error: a call that returns normally or throws. */
  datatype Result<R, E> = Success(value: R) | Failure(error: E)

  /** A call without a value that either completes or throws. */
  datatype Outcome<E> = Pass | Fail(error: E)
}
