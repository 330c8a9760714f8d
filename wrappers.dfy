/** Optional values: a JavaScript `undefined`/`null` or a callback that was not fired is `None`. */
module Wrappers {
  datatype Option<+T> = None | Some(value: T)
}
