/** The optional value used wherever the source has an optional field or a lookup that may miss. */
module Wrappers {
  datatype Option<+T> = None | Some(value: T)
}
