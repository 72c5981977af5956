/** The optional value of an outside answer: a file dialog's choice, a parsed count. */
module Wrappers {

  datatype Option<T> = None | Some(value: T)

}
