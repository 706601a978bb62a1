/** The Option datatype used for values that may be absent: the outcome of
    decoding a request body, the index of a match, a reply that the handler
    itself never writes. */
module Wrappers {

  datatype Option<+T> = None | Some(value: T)
}
