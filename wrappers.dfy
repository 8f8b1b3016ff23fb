/** The optional value used for every field that a request body or the
    Worker's environment may leave out. */
module Wrappers {

  datatype Option<+T> = None | Some(value: T)
}
