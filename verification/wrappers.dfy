/** The optional value used wherever the form holds `undefined` or `null`. */
module Wrappers {

  datatype Option<+T> = None | Some(value: T)

}
