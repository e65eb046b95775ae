/** The optional value used for props that a caller may leave unset. */
module Wrappers {

  datatype Option<+T> = None | Some(value: T)
}
