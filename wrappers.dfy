/** A value that may be absent: a TypeScript `T | null`. */
module Wrappers {

  datatype Option<+T> = None | Some(value: T)
}
