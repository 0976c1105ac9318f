/** The optional-value datatype used throughout the model: `None` stands for
    JavaScript's `undefined` (an absent field, a parse that did not happen). */
module Wrappers {

  datatype Option<+T> = None | Some(value: T)
}
