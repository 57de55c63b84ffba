/** The optional value used for form fields that may be unset and for the
    result slots that start out empty. */
module Wrappers {

  datatype Option<+T> = None | Some(value: T)
}
