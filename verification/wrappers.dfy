/** The optional value used for the panel's session key, which is absent
    until the game reports one. */
module Wrappers {

  datatype Option<+T> = None | Some(value: T)
}
