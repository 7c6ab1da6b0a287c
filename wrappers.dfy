/** The optional-value type used for JavaScript operations that may throw. */
module Wrappers {
  datatype Option<+T> = None | Some(value: T)
}
