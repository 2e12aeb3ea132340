/** Option and Result, the failure-carrying types the model uses for PHP's
    `null` returns and for thrown exceptions (which abort the whole run). */
module Wrappers {

  datatype Option<+T> = None | Some(value: T)

  /** `Err(message)` stands for an exception thrown by the source; the message
      is the one the source builds. */
  datatype Result<+T> = Ok(value: T) | Err(message: string)
}
