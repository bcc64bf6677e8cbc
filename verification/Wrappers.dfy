/** The optional value used across the model for the source's `Option` and null pointers. */
module Wrappers {
  datatype Option<+T> = None | Some(value: T)
}
