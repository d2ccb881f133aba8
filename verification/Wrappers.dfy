/** The optional value that stands for Go's nil pointers, missing rows and absent results. */
module Wrappers {
  datatype Option<+T> = None | Some(value: T)
}
