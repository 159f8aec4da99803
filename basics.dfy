/** Value types shared by every component of the model: bytes, errors and
    the success/failure results of asynchronous operations. */
module Basics {

  /** One byte of an image or of a device. */
  newtype Byte = b: int | 0 <= b < 0x100

  /** A thrown JavaScript error: its `code` property and its message. */
  datatype Error = Error(code: string, message: string)

  /** A promise that resolves with a value or rejects with an error. */
  datatype Result<T> = Ok(value: T) | Err(error: Error)

  /** A value that may be `undefined`. */
  datatype Option<T> = None | Some(value: T)

  /** A promise that resolves with nothing or rejects with an error. */
  datatype Outcome = Pass | Fail(error: Error)
}
