/** Absent-or-present values: the model's stand-in for null results. */
module Wrappers {
  datatype Option<+T> = None | Some(value: T)
}
