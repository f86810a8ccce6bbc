/** The optional value used where the source has a null pointer or a missing slot. */
module Wrappers {

  datatype Option<+T> = None | Some(value: T)
}
