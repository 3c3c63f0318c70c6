/** The optional value used for every Python attribute that may be None. */
module Wrappers {
  datatype Option<+T> = None | Some(value: T)
}
