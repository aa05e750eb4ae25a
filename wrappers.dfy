/** Option and Result values, used for the nullable fields of the view state and for
    the outcome of every awaited wallet or contract call. */
module Wrappers {

  datatype Option<+T> = None | Some(value: T)

  /** The outcome of an awaited call: the value it resolved with, or what it threw. */
  datatype Result<+R, +E> = Ok(value: R) | Err(error: E)
}
