/** Optional values. In this model `None` stands for JavaScript's `NaN` (an amount
    that is not a number) or `undefined` (a cell read past the end of a column). */
module Wrappers {

  datatype Option<+T> = None | Some(value: T)
}
