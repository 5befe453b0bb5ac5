/** Optional values and results shared by the modules of the model. */
module Wrappers {

  /** A value that may be absent: a nullable field or an optional property. */
  datatype Option<+T> = None | Some(value: T)

  /** The outcome of an operation whose promise may reject. */
  datatype Result<+T> = Ok(value: T) | Err(reason: string)
}
