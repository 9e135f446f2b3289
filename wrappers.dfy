/** The conventional Some/None datatype, the model's stand-in for a nullable value. */
module Wrappers {

  datatype Option<+T> = None | Some(value: T)
}
