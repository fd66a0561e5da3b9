/** The optional value used for the service's nullable inputs: a `Double`
    query parameter that may be absent, and a gold-price response that may
    be missing. */
module Wrappers {

  datatype Option<+T> = None | Some(value: T)
}
