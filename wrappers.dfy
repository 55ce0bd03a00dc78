/** Optional values: `None` stands for a JavaScript `undefined` (or a missing
    property), `Some(v)` for a present value. */
module Wrappers {

  datatype Option<+T> = None | Some(value: T)
}
