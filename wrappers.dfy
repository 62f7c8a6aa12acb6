/** The optional value used where the bot passes `None` or an empty string. */
module Wrappers {

  datatype Option<+T> = None | Some(value: T)
}
