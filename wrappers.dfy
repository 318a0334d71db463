/** Absent-or-present values, used for JavaScript `undefined`/`null` and
    for keys a record may lack. */
module Wrappers {
  datatype Option<T> = None | Some(value: T)
}
