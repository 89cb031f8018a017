/** Option and Result, the two failure-carrying types the models below share. */
module Wrappers {

  /** A value that may be absent: a `string | null` field on the client, "no error or the error" on the server. */
  datatype Option<+T> = None | Some(value: T)

  /** The `(value, error)` pair a Go function returns, with exactly one of the two present. */
  datatype Result<+T, +E> = Ok(value: T) | Err(error: E)
}
