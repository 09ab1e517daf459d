/** Optional values. `None` stands for a JavaScript value that `isNaN` reports
    as not-a-number: `NaN` itself, or `undefined` read past the end of an array. */
module Wrappers {

  datatype Option<+T> = None | Some(value: T)
}
