/** The optional value used for metadata that may be absent (a lock, an error payload,
    an unset global, a home path that is not a string). */
module Wrappers {

  datatype Option<+T> = None | Some(value: T)
}
