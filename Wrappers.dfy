/** Optional values and results, standing for JavaScript's `null` and thrown errors. */
module Wrappers {

  /** `None` is JavaScript's `null`/`undefined`; `Some(v)` a present value. */
  datatype Option<+T> = None | Some(value: T)

  /** The outcome of an operation that may throw: `Failure(e)` is the thrown error. */
  datatype Result<+R, +E> = Success(value: R) | Failure(error: E)
}
