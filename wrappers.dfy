/** The Option datatype used for the monitor's nullable fields. */
module Wrappers {

  datatype Option<+T> = None | Some(value: T)
}
