/** A value that may be absent: the model of a JavaScript `null`-able field. */
module Wrappers {

  datatype Option<+T> = None | Some(value: T)
}
