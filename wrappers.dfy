/** The optional value shared by the blog index and the symbol trainer. */
module Wrappers {

  datatype Option<T> = None | Some(value: T)
}
