/** The optional value used for the partial library calls the ingester makes
    (base64 decoding, JSON marshalling). */
module Wrappers {

  datatype Option<+T> = None | Some(value: T)
}
