/** A value that may be absent: Python's None or something. */
module Wrappers {
  datatype Option<+T> = None | Some(value: T)
}
