/** The optional value the session and the synthesis wrappers traffic in
    (Python's `None` or a value). */
module Wrappers {
  datatype Option<+T> = None | Some(value: T)
}
