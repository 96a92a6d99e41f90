/** The optional value used wherever the application holds `null` or an absent field. */
module Wrappers {

  datatype Option<+T> = None | Some(value: T)
}
