/** The optional value shared by the whole project. */
module Wrappers {
  datatype Option<+T> = None | Some(value: T)
}
