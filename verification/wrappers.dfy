/** The optional value used across the model (Go's nil pointers and blocked receives). */
module Wrappers {

  datatype Option<T> = None | Some(value: T)
}
