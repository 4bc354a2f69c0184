/** The optional value used wherever the firmware passes a nullable pointer or a missing field. */
module Wrappers {

  datatype Option<+T> = None | Some(value: T)
}
