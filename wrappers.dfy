/** Optional values. `None` stands for JavaScript's NaN / undefined wherever the
    survey pipeline marks a numeric field as missing. */
module Wrappers {

  datatype Option<+T> = None | Some(value: T)
}
