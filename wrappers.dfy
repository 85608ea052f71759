/** The optional value used by the code-to-enumeration decoders. */
module Wrappers {

  datatype Option<+T> = None | Some(value: T)
}
