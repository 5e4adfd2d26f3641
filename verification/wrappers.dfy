/** Optional values, Go's `(value, error)` returns, and the errors the core can report. */
module Wrappers {

  /** A Go pointer that may be nil (`*string` fields of SDK records). */
  datatype Option<+T> = None | Some(value: T)

  /** The errors that reach a caller of the core. */
  datatype Error =
    | ParseError(reason: string)  // the YAML document could not be decoded
    | NoSuchKey(key: string)      // "no such key: <key>"
    | ApiError(reason: string)    // an error from a cloud inventory API

  /** A Go `(T, error)` pair: a value with a nil error, or a nil value with an error. */
  datatype Outcome<+T> = Ok(value: T) | Err(error: Error)
}
