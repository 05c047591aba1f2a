/** The optional values of the TypeScript source (`label?`, `error?`, an
    environment variable that may be undefined). */
module Wrappers {

  datatype Option<+T> = None | Some(value: T)
}
