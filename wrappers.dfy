/** The optional value used for Python's `None` results and for library
    calls that may raise. */
module Wrappers {
  datatype Option<+T> = None | Some(value: T)
}
