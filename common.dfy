/** Values shared by every module: JavaScript's `null`/`undefined` and its
    thrown exceptions, made explicit. */
module Common {

  /** `None` stands for a JavaScript `null` or `undefined`. */
  datatype Option<+T> = None | Some(value: T)

  /** The result of code that may throw: `Err` carries the error's message. */
  datatype Result<+T> = Ok(value: T) | Err(message: string)

  /** The result of calling a foreign callable that may raise. */
  datatype Outcome<+T> = Returned(value: T) | Threw

  /** An 8-bit byte of a request body. */
  type byte = x: int | 0 <= x < 256
}
