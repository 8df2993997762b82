/** The optional value used where the script holds `null` or an absent value. */
module Wrappers {
  datatype Option<+T> = None | Some(value: T)
}
