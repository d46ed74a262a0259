/** Small helper datatypes shared by the other modules. */
module Wrappers {

  /** A value that may be absent: TypeScript's `T | null` or `T | undefined`. */
  datatype Option<+T> = None | Some(value: T)
}
