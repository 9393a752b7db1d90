/** A value that may be absent: the source's null or undefined. */
module Wrappers {
  datatype Option<+T> = None | Some(value: T)
}
