/** The model's stand-in for Go's nil-able values. */
module Wrappers {

  datatype Option<+T> = None | Some(value: T)
}
