/** The optional value used for JavaScript's `undefined`-able fields and for the
    result of `Array.prototype.find`. */
module Wrappers {

  datatype Option<+T> = None | Some(value: T)
}
