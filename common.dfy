/** Small wrapper types shared by the chat and session modules. */
module Common {

  /** A value that may be absent: JavaScript's `null`/`undefined`. */
  datatype Option<T> = None | Some(value: T)

  /** The outcome of an operation that can fail with a message. */
  datatype Result<T> = Success(value: T) | Failure(error: string)
}
