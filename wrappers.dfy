/** The optional value used throughout the model for "maybe a row", "maybe a token". */
module Wrappers {
  datatype Option<+T> = None | Some(value: T)
}
