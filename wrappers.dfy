/** The optional value used for the source's `undefined` arguments and lookups. */
module Wrappers {

  datatype Option<+T> = None | Some(value: T)

}
