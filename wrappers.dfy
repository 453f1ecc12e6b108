/** The optional value used wherever the bot sees `undefined` or `null`. */
module Wrappers {
  datatype Option<+T> = None | Some(value: T)
}
