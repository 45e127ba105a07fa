/** The optional value returned by the driver's `get` (Swift's `JobStorage?`). */
module Wrappers {

  datatype Option<+T> = None | Some(value: T)
}
