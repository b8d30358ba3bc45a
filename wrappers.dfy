/** Small value wrappers shared by the modules of this project. */
module Wrappers {

  /** A value that may be absent (TypeScript's `T | null`, or an optional property). */
  datatype Option<+T> = None | Some(value: T)

  /** A raw byte payload (a Node `Buffer` of PCM audio). */
  type Bytes = seq<bv8>
}
