/** A value that may be missing, as the source's `None`. */
module Wrappers {
  datatype Option<+T> = None | Some(value: T)
}
