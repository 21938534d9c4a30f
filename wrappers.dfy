/** The optional value used wherever the framework may answer "nothing". */
module Wrappers {
  datatype Option<T> = None | Some(value: T)
}
