/** An optional value: Go's nil-able function values and errors. */
module Wrappers {

  datatype Option<T> = None | Some(value: T)
}
