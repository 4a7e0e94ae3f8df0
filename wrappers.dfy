/** The optional value used for a lookup that may find nothing
    (a TypeScript `T | undefined` or `string | null`). */
module Wrappers {
  datatype Option<+T> = None | Some(value: T)
}
