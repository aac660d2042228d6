/** The optional value the agents use for dictionary entries that may be
    absent. */
module Wrappers {
  datatype Option<T> = None | Some(value: T)
}
