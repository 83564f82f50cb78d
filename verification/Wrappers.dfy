/** Small types used everywhere. */
module Wrappers {
  datatype Option<T> = None | Some(value: T)

  /** A JSON document as a row holds it: what it says, its length in bytes, and whether it is
      well formed. */
  datatype Doc<T> = Doc(says: T, bytes: nat, valid: bool)
}
