/** The usual optional-value datatype, used for JSON fields that may be absent or null. */
module Wrappers {

  datatype Option<+T> = None | Some(value: T)
}
