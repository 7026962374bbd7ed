/** Failure-carrying datatypes shared by the model.

    The application reports every failure as a JavaScript `Error` whose
    `message` string is what eventually reaches the user, so `Result` carries
    the message itself rather than a structured error value.
 */
module Wrappers {

  /** A value that may be absent: JavaScript's `undefined` / `null`. */
  datatype Option<+T> = None | Some(value: T)

  /** The outcome of an operation that either returns a value or throws. */
  datatype Result<+T> = Ok(value: T) | Err(message: string)
}
