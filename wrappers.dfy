/** The JavaScript `null`-or-value convention, as an option type. */
module Wrappers {

  datatype Option<+T> = None | Some(value: T)
}
