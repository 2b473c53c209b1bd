/** The optional value used for "no match" and "no reply". */
module Wrappers {

  datatype Option<+T> = None | Some(value: T)
}
