/** An optional value, for properties that a JavaScript object may or may not carry. */
module Wrappers {

  datatype Option<T> = None | Some(value: T)
}
