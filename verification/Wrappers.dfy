/** The optional value used throughout for Python's `None` and for partial functions. */
module Wrappers {
  datatype Option<+T> = None | Some(value: T)
}
