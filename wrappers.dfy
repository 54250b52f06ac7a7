/** A value that may be absent: a JavaScript `undefined` or a missing key. */
module Wrappers {

  datatype Option<+T> = None | Some(value: T)
}
