/** The two result shapes the pool's code uses: an optional value and a value-or-refusal. */
module Wrappers {
  datatype Option<+T> = None | Some(value: T)

  datatype Result<+T, +E> = Ok(value: T) | Err(error: E)
}
