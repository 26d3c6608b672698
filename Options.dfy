/** A value that may be absent: JavaScript's `null`, or `NaN` where a parse fails. */
module Options {
  datatype Option<+T> = None | Some(value: T)
}
