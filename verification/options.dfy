/** Optional values and results, for `undefined`/`null` returns and thrown errors. */
module Options {

  datatype Option<+T> = None | Some(value: T)

  /** The outcome of an operation that may throw: a value, or the message of the error. */
  datatype Result<+T> = Ok(value: T) | Err(message: string)
}
