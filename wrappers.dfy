/** Option, standing for a nullable reference or a lookup that may fail. */
module Wrappers {
  datatype Option<+T> = None | Some(value: T)
}
