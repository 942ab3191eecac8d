/** Optional values and results, standing in for JavaScript's `undefined` and thrown errors. */
module Wrappers {

  /**
   * `None` is a JavaScript value that is not there: a property read that
   * gives `undefined`, or, where a caller tests `hasOwnProperty`, a key the
   * object does not have.
   */
  datatype Option<+T> = None | Some(value: T)

  /** The outcome of a step that either produces a value or throws an `Error` with a message. */
  datatype Result<+T> = Success(value: T) | Failure(message: string)
}
