/** Optional values: a JavaScript value that may be `undefined`/`null`, or a field that may be absent. */
module Wrappers {

  datatype Option<+T> = None | Some(value: T)

}
