/** Small failure-carrying datatypes shared by the model. */
module Wrappers {

  /** A value that may be absent: an object key that is not present, or `null`. */
  datatype Option<T> = None | Some(value: T)

  /** The outcome of evaluating code that may throw: `Ok` with its value, or
      `TypeError` when it reads a property of an absent (undefined) object. */
  datatype Result<T> = Ok(value: T) | TypeError
}
