/** The optional value the classifier returns: a label, or nothing when no rule matched. */
module Wrappers {

  datatype Option<+T> = None | Some(value: T)
}
