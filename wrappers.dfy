/** The optional value used throughout the model in place of a Java reference that may be null. */
module Wrappers {

  datatype Option<+T> = None | Some(value: T)
}
