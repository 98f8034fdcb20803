/** Small failure-carrying wrappers shared by every module of the model. */
module Base {

  /** An optional value: Swift's `T?`, or a JavaScript property that may be undefined. */
  datatype Option<+T> = None | Some(value: T)

  /** A value or the error that replaced it (a Swift `throws`, a JavaScript `throw`). */
  datatype Result<+T, +E> = Ok(value: T) | Err(error: E)

  /** The outcome of a check that returns nothing on success and throws on failure. */
  datatype Outcome<+E> = Pass | Fail(error: E)
}
