/** Option values for the optional record fields, stored values and callbacks of the model. */
module Wrappers {
  datatype Option<+T> = None | Some(value: T)
}
