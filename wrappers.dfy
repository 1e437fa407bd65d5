/** The optional value used wherever PHP has "a value or nothing" (an optional path argument,
    a parsed body that may be absent, a NULL column). */
module Wrappers {

  datatype Option<+T> = None | Some(value: T)
}
