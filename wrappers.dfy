/** The optional values of the client: TypeScript's `T | null`, `T | undefined` and `field?: T`. */
module Wrappers {

  datatype Option<+T> = None | Some(value: T)
}
