/** The optional value the source writes as `Option<T>`. */
module Wrappers {
  datatype Option<T> = None | Some(value: T)
}
