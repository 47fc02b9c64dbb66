/** Optional values and call outcomes shared by every module of the model. */
module Wrappers {

  /** An optional value; stands for Python's `None`-or-object slots. */
  datatype Option<+T> = None | Some(value: T)

  /** The outcome of a call that either returns a value or raises an exception. */
  datatype Result<+T, +E> = Success(value: T) | Failure(error: E)
}
