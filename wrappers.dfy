/** The optional value used wherever the source may yield `undefined`. */
module Wrappers {

  datatype Option<+T> = None | Some(value: T)
}
