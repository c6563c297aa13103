/** Option and Result, as Go's `(value, error)` pairs and nullable fields are modelled. */
module Wrappers {

  datatype Option<+T> = None | Some(value: T)

  /** A Go `(value, err)` pair: `Err` carries the text of `err.Error()`. */
  datatype Result<+T> = Ok(value: T) | Err(error: string)
}
