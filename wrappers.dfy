/** The result of parsing one form field as an integer: None when the text is not an integer. */
module Wrappers {
  datatype Option<+T> = None | Some(value: T)
}
