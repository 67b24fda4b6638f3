/** The optional value used for an empty slot and for "no estimate yet". */
module Wrappers {

  datatype Option<+T> = None | Some(value: T)
}
