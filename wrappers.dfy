/** Optional values and results that carry an error message, as JavaScript's
    `undefined` and thrown `Error`s are modelled throughout the project. */
module Wrappers {

  datatype Option<+T> = None | Some(value: T)

  /** `Err` carries the `message` of the `Error` the source throws or rejects with. */
  datatype Result<+T> = Ok(value: T) | Err(message: string)
}
