/** Optional values and results that can fail. */
module Wrappers {

  datatype Option<+T> = None | Some(value: T)

  /** The outcome of an operation that throws: error texts are not part of this model. */
  datatype Result<+T> = Ok(value: T) | Err
}
