/** The nil-or-value shape that Go pointers and interfaces take in this model. */
module Wrappers {
  datatype Option<+T> = None | Some(value: T)
}
