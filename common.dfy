/** A value that may be missing: JavaScript's `null`/`undefined` alternative. */
module Common {

  datatype Option<+T> = None | Some(value: T)
}
