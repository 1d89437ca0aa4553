/** The optional value used where Go returns a value together with an error. */
module Wrappers {

  datatype Option<+T> = None | Some(value: T)
}
