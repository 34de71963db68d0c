/** An optional value, standing for a field that an action record may lack. */
module Wrappers {
  datatype Option<+T> = None | Some(value: T)
}
