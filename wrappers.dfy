/** The optional value used where the source gets back either an object or None. */
module Wrappers {

  datatype Option<+T> = None | Some(value: T)
}
