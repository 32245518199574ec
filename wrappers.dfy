/** The optional value used where Go returns a nil-able error or a missing value. */
module Wrappers {

  datatype Option<+T> = None | Some(value: T)
}
