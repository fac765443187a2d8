/** The optional value used for quantities a configuration does not report. */
module Wrappers {

  datatype Option<+T> = None | Some(value: T)
}
