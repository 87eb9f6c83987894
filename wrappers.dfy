/** The optional value used for selections, listings and the pending action. */
module Wrappers {
  datatype Option<+T> = None | Some(value: T)
}
