/** The optional value used for "absent" results: a missing file, a failed fetch, a parse that does not match. */
module Wrappers {
  datatype Option<+T> = None | Some(value: T)
}
