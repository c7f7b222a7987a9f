/** The optional value used wherever the source has a Ruby object or nil. */
module Wrappers {
  datatype Option<+T> = None | Some(value: T)
}
