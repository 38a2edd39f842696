/** A value that may be absent: an optional field of a TypeScript object,
    or `undefined` at the end of an optional chain `a?.b`. */
module Wrappers {
  datatype Option<+T> = None | Some(value: T)
}
