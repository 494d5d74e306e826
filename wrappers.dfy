/** The optional value the components share (`null` or `undefined` versus a value). */
module Wrappers {
  datatype Option<T> = None | Some(value: T)
}
