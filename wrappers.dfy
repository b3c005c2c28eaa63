/** The optional value used for absent options and for parses that fail. */
module Wrappers {

  datatype Option<+T> = None | Some(value: T)
}
