/** The Option datatype, used for the optional fields of a feedback draft. */
module Wrappers {

  datatype Option<+T> = None | Some(value: T)

}
