/** An optional value: a field or reply that JavaScript may leave `undefined`. */
module Wrappers {

  datatype Option<+T> = None | Some(value: T)
}
