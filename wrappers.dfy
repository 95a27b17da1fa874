/** The optional value used wherever the source returns a Python `None`. */
module Wrappers {

  datatype Option<+T> = None | Some(value: T)

}
