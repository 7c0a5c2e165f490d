/** Go's nil-able results: `Option<Error>` is an `error` that may be nil. */
module Wrappers {

  datatype Option<+T> = None | Some(value: T)

}
