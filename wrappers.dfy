/** The optional value used throughout the model: a fetch that may fail, an
    indicator value that may be undefined. */
module Wrappers {

  datatype Option<+T> = None | Some(value: T)
}
