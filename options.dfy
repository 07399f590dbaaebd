/** The optional value used where the source produces `undefined` or `NaN`. */
module Options {
  datatype Option<+T> = None | Some(value: T)
}
