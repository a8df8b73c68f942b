/** The optional value the parser and the resolver use for "null", "undefined" and "no match". */
module Wrappers {

  datatype Option<+T> = None | Some(value: T)
}
