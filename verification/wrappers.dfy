/** A value that may be absent: a missing JSON field, a lookup that finds nothing. */
module Wrappers {

  datatype Option<+T> = None | Some(value: T)

}
