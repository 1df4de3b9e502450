/** The usual Some/None datatype, used for the outcome of a parser that may fail. */
module Wrappers {

  datatype Option<+T> = None | Some(value: T)
}
