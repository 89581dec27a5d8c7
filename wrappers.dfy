/** A value that may be missing: a Python `None` or an unset optional input. */
module Wrappers {

  datatype Option<+T> = None | Some(value: T)

}
