/** The optional value used for nullable engine references. */
module Wrappers {
  datatype Option<+T> = None | Some(value: T)
}
