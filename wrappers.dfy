/** Optional values: `None` stands for JavaScript's `null`, `undefined` and `NaN`
    wherever the scanner produces one of them instead of a number. */
module Wrappers {
  datatype Option<+T> = None | Some(value: T)
}
