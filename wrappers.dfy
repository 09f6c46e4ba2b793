/** A value that may be absent: a tier the scan did not find, a save file
    that does not exist. */
module Wrappers {
  datatype Option<T> = None | Some(value: T)
}
