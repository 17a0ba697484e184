/** The Option type used for values that a lookup may not find. */
module Wrappers {

  datatype Option<+T> = None | Some(value: T)
}
