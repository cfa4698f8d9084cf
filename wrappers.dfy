/** Option and Result, for the `Option<T>` fields of the records and the
    `Result`s that the fetch code unwraps. */
module Wrappers {

  datatype Option<+T> = None | Some(value: T)

  datatype Result<+T, +E> = Ok(value: T) | Err(error: E)
}
