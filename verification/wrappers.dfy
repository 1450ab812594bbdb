/** A value that may be absent: a ref that is still null, a plugin without an extension. */
module Wrappers {
  datatype Option<+T> = None | Some(value: T)
}
