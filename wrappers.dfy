/** The optional value used wherever the source has `undefined` or an optional property. */
module Wrappers {

  datatype Option<+T> = None | Some(value: T)
}
