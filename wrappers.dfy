/** The optional value used for the nullable status code and the optional delimiter. */
module Wrappers {

  datatype Option<+T> = None | Some(value: T)
}
