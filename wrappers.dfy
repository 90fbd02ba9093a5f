/** The usual optional value, for pointers that may be null and results that may be absent. */
module Wrappers {
  datatype Option<+T> = None | Some(value: T)
}
