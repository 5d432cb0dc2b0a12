/** The optional values used by the models. */
module Wrappers {
  datatype Option<+T> = None | Some(value: T)
}
