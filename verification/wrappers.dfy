/** The optional values the command line produces (`Option<usize>` in the program). */
module Wrappers {

  datatype Option<+T> = None | Some(value: T)

}
