/** Optional values: JavaScript's `undefined`/`null` results and parse failures. */
module Wrappers {
  datatype Option<+T> = None | Some(value: T)

  /** The value, or `d` when absent: a default parameter, or a key a spread leaves alone. */
  function Or<T>(o: Option<T>, d: T): T
  {
    if o.Some? then o.value else d
  }
}
