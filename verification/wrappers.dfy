/** The optional value used throughout the model: a JavaScript value that may be
    `undefined` (a component state that was never set, an absent JSON field). */
module Wrappers {

  datatype Option<+T> = None | Some(value: T)
}
