/** The optional value used for JavaScript's "may be absent" fields. */
module Wrappers {

  datatype Option<+T> = None | Some(value: T)
}
