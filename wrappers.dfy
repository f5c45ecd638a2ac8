/** The optional value used wherever JavaScript has `undefined` or an absent field. */
module Wrappers {
  datatype Option<+T> = None | Some(value: T)
}
