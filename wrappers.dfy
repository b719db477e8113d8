/** The Some/None datatype used for JavaScript's `null`/`undefined`-able values. */
module Wrappers {

  datatype Option<+T> = None | Some(value: T)

}
