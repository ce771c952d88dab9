/** A value that may be absent: a document that does not exist, a header that was
    not sent, a decryption that the cipher rejected. */
module Wrappers {

  datatype Option<+T> = None | Some(value: T)
}
