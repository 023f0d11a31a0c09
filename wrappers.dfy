/** The optional value used wherever the application may find nothing:
    a CSS selector with no match, a page without a body, a missing feed field. */
module Wrappers {

  datatype Option<+T> = None | Some(value: T)
}
