/** The optional-value type the model uses for JavaScript's `undefined` / `null`. */
module Wrappers {

  datatype Option<T> = None | Some(value: T)
}
