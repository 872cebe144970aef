/** Optional values and results with an error, as used throughout the model. */
module Wrappers {

  /** An optional value: `None` stands for a JavaScript `undefined` or missing value. */
  datatype Option<+T> = None | Some(value: T)

  /** A computation that either returns a value or throws an error. */
  datatype Result<+T, +E> = Success(value: T) | Failure(error: E)
}
