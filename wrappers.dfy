/** Optional values, results with an error message, and values with warnings, shared by every module. */
module Wrappers {

  /** A value that may be missing; for props, `None` is JavaScript's `undefined`. */
  datatype Option<+T> = None | Some(value: T)

  /** The outcome of a JavaScript function that returns a value or throws an `Error`. */
  datatype Result<+T> = Success(value: T) | Failure(error: string)

  /** A returned value together with the messages passed to `console.warn` while computing it. */
  datatype Warned<+T> = Warned(value: T, warnings: seq<string>)
}
