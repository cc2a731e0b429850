/** Shared helper types. */
module Wrappers {

  /** A value that may be absent: stands for a TypeScript optional field or a nullable variable. */
  datatype Option<+T> = None | Some(value: T)
}
