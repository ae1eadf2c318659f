/** Option and Result, the two wrappers the model uses for JavaScript's
    `undefined` and for the HTTP handlers' early error returns. */
module Wrappers {

  /** A value that may be absent (`undefined` in the source). */
  datatype Option<+T> = None | Some(value: T)

  /** An outcome that is either a value or a rejection. */
  datatype Result<+T, +E> = Ok(value: T) | Err(error: E)

  /** The status code and JSON `error` text an API handler answers with when it
      rejects a request. */
  datatype HttpError = HttpError(status: int, message: string)
}
