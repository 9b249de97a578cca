/** The optional-value wrapper used for every `?:` field of the message envelope. */
module Wrappers {

  datatype Option<+T> = None | Some(value: T)
}
