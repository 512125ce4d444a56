/** The optional-value type used for the absent fields of a notification document. */
module Wrappers {

  datatype Option<+T> = None | Some(value: T)
}
