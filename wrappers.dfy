/** The absence-or-value type used where JavaScript answers `undefined`. */
module Wrappers {

  /** `None` stands for "no value" (`undefined`); `Some(v)` carries a value. */
  datatype Option<+T> = None | Some(value: T)
}
