/** Small failure-carrying datatypes shared by the other modules. */
module Wrappers {

  /** An optional value: `None` stands for a lookup that raised or found nothing. */
  datatype Option<+T> = None | Some(value: T)

  /** The outcome of an operation that either yields a value or raises an error. */
  datatype Result<+T, +E> = Ok(value: T) | Err(error: E)
}
