/** The optional value used for inputs that JavaScript may leave undefined. */
module Wrappers {
  datatype Option<+T> = None | Some(value: T)
}
