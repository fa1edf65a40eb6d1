/** The optional value the parsers return: `None` for text of the wrong shape. */
module Wrappers {

  datatype Option<+T> = None | Some(value: T)
}
