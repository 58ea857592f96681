/** An optional value: a field or argument that the source may leave undefined. */
module Wrappers {
  datatype Option<+T> = None | Some(value: T)
}
