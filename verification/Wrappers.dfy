/** The optional value used across the model for a TypeScript `undefined`. */
module Wrappers {
  datatype Option<+T> = None | Some(value: T)
}
