/** Optional values, standing in for the `undefined` that a map lookup or a
    missing record field yields in the program. */
module Wrappers {

  datatype Option<+T> = None | Some(value: T)

}
