/** The optional value used for absent keys, fields and array lookups. */
module Wrappers {
  datatype Option<+T> = None | Some(value: T)
}
