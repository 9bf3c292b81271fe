/** An optional value: None stands for a JavaScript `undefined` (or `null`). */
module Wrappers {

  datatype Option<+T> = None | Some(value: T)
}
