/** The optional value that several models share. */
module Wrappers {
  datatype Option<+T> = None | Some(value: T)
}
