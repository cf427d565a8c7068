/** A value that may be absent, for the source's `Option`. */
module Wrappers {
  datatype Option<+T> = None | Some(value: T)
}
