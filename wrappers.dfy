/** The optional value used for the lexer's `prevToken` pointer (nil or a token). */
module Wrappers {
  datatype Option<+T> = None | Some(value: T)
}
