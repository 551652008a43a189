/** The optional value the game returns as `null` when there is nothing to give. */
module Wrappers {
  datatype Option<T> = None | Some(value: T)
}
