/** Shared optional-value type: JavaScript's `null`/`undefined` become `None`. */
module Wrappers {

  datatype Option<+T> = None | Some(value: T)
}
