/** Optional values and results carrying an error, as used by every other module. */
module Wrappers {

  /** `None` stands for JavaScript's `undefined` wherever a value may be absent. */
  datatype Option<+T> = None | Some(value: T)

  /** The outcome of an operation that the server ends by throwing an `Error`. */
  datatype Result<+R, +E> = Success(value: R) | Failure(error: E)
}
