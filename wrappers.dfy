/** The optional value used for JavaScript's `undefined` and absent arguments. */
module Wrappers {

  datatype Option<+T> = None | Some(value: T)

}
