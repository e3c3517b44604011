/** The optional-value and outcome datatypes used by the model. */
module Wrappers {

  /** A value that may be absent (Python's `None`, or a `str.find` that found nothing). */
  datatype Option<+T> = None | Some(value: T)

  /** The outcome of a step that can raise: a value, or the exception's message. */
  datatype Result<+R> = Ok(value: R) | Err(message: string)
}
