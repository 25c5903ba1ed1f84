/** The optional value that stands for JavaScript's `undefined`, `null` and `NaN` in this model. */
module Wrappers {

  datatype Option<+T> = None | Some(value: T)
}
