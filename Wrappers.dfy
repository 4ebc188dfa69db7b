/** Small failure-compatible helper shared by the other modules. */
module Wrappers {

  /** A value that may be absent (a NULL out-pointer, a nil object). */
  datatype Option<+T> = None | Some(value: T)
}
