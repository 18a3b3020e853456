/** The optional value used wherever the proxy's code reports "no value" or a failed parse. */
module Wrappers {

  datatype Option<+T> = None | Some(value: T)
}
