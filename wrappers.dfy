/** The optional value shared by the history and layout-cache models. */
module Wrappers {
  datatype Option<T> = None | Some(value: T)
}
