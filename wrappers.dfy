/** An optional value: the model's stand-in for a JavaScript value that may be
    `undefined` or `null`. */
module Wrappers {

  datatype Option<+T> = None | Some(value: T)
}
