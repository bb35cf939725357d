/** The optional value used wherever the source has `None` or an attribute
    that may be missing. */
module Wrappers {
  datatype Option<+T> = None | Some(value: T)
}
