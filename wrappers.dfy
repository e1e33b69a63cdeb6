/** Small failure-carrying datatypes shared by every module of the model. */
module Wrappers {

  /** A value that may be absent (a Go nil pointer, or an attribute `GetOk` reports unset). */
  datatype Option<+T> = None | Some(value: T)

  /**
   * The outcome of one call into the goawx REST client: the decoded answer, or the
   * error the client returned. The model never computes these; each handler takes
   * them as inputs, so every possible answer of the remote system is covered.
   */
  datatype Remote<+T> = Ok(value: T) | Err(message: string)
}
