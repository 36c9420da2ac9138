/** The optional value used for absent query parameters, missing store entries and null bodies. */
module Wrappers {
  datatype Option<+T> = None | Some(value: T)
}
