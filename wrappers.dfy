/** A value that may be absent: JavaScript's `null` / `undefined` in the dashboard's state. */
module Wrappers {
  datatype Option<+T> = None | Some(value: T)
}
