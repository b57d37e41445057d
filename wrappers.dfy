/** The optional value used wherever the dashboard's code reads a property
    that may be `undefined` or `null`. */
module Wrappers {

  datatype Option<+T> = None | Some(value: T)
}
