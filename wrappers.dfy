/** Option type for operations of the bot that raise an exception on some inputs. */
module Wrappers {
  datatype Option<+T> = None | Some(value: T)
}
