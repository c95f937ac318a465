/** The optional value used wherever the script returns `null` or a match object. */
module Wrappers {
  datatype Option<+T> = None | Some(value: T)
}
