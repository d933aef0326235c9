/** The optional value used for the navigation a submit may or may not request. */
module Wrappers {

  datatype Option<+T> = None | Some(value: T)
}
