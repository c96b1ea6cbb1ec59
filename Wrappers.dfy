/** The optional value used for the source's `null` / missing fields. */
module Wrappers {
  datatype Option<+T> = None | Some(value: T)
}
