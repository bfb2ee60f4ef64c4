// Optional values and the two-sided results that stand for Go's (value, error) pairs.
module Wrappers {
  datatype Option<+T> = None | Some(value: T)

  datatype Result<+T> = Ok(value: T) | Err
}
