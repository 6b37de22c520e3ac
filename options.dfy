/** The optional value used wherever the source returns `null`/`undefined` or skips an update. */
module Options {
  datatype Option<+T> = None | Some(value: T)
}
