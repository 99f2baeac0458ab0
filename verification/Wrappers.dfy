/** The datatype for what may be absent. */
module Wrappers {

  datatype Option<T> = None | Some(value: T)
}
