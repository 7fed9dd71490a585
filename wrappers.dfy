/** An optional value, for the source's nullable fields and optional keys. */
module Wrappers {

  datatype Option<+T> = None | Some(value: T)
}
