/** The optional-value datatype shared by every module of the model. */
module Wrappers {

  /** `None` stands for Python's `None` result or a JavaScript `undefined` property. */
  datatype Option<+T> = None | Some(value: T)
}
