/** The optional value that `Array.prototype.find` returns: `undefined`
    becomes None. */
module Wrappers {

  datatype Option<+T> = None | Some(value: T)
}
