/** The optional value used for claims and query lookups that may be absent. */
module Wrappers {

  /** `None` stands for a JavaScript `undefined` value. */
  datatype Option<+T> = None | Some(value: T)
}
