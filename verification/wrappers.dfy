/** A value that may be absent, as a session key that may be unset. */
module Wrappers {
  datatype Option<+T> = None | Some(value: T)
}
