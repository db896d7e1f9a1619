/** Values that may be missing: `null`, `undefined` or an absent property in the source. */
module Base {

  datatype Option<+T> = None | Some(value: T)
}
