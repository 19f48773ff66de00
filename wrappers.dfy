/** The optional value used for absent results across the model. */
module Wrappers {
  datatype Option<+T> = None | Some(value: T)
}
