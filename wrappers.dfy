/** The optional value used for the token slot and for navigation intents. */
module Wrappers {

  datatype Option<+T> = None | Some(value: T)
}
