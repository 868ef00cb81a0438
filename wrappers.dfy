/** Optional values: a JavaScript `undefined`, a missing field or a failed lookup. */
module Wrappers {

  datatype Option<+T> = None | Some(value: T)

}
