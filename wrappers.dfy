/** Small helper datatypes shared by the model. */
module Wrappers {

  /** An optional value; `None` stands for an argument that was not passed. */
  datatype Option<T> = None | Some(value: T)
}
