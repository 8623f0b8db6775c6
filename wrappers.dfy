/** The conventional optional value: `None` stands for an answer that is `undefined` or that `Number` maps to NaN. */
module Wrappers {

  datatype Option<+T> = None | Some(value: T)
}
