/** An optional value, shared by the other modules. */
module Wrappers {

  /** A value that may be absent; models a nullable column or an `error` that may be nil. */
  datatype Option<+T> = None | Some(value: T)
}
