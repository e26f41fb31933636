/** The optional value used where the modelled code has a "no result" case. */
module Wrappers {

  datatype Option<+T> = None | Some(value: T)
}
