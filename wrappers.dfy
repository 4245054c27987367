/** The optional value used for decoding results. */
module Wrappers {

  datatype Option<+T> = None | Some(value: T)
}
