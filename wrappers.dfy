/** Python's `None`-or-value and raise-or-return, as datatypes. */
module Wrappers {

  /** An optional value: `None` is Python's `None`. */
  datatype Option<+T> = None | Some(value: T)

  /** The outcome of a Python call that either returns a value or raises. */
  datatype Result<+T, +E> = Ok(value: T) | Err(error: E)
}
