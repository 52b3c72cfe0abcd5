/** An optional value: a JavaScript property that may be missing (or `null`), a lookup that may
    find nothing. */
module Options {
  datatype Option<+T> = None | Some(value: T)
}
