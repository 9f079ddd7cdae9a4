/** The optional value used for absent snapshots, missing friend documents and
    the handler's `null` return. */
module Wrappers {

  datatype Option<+T> = None | Some(value: T)

}
