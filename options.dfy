/** The optional value used for "element present or absent" and "no item open". */
module Options {
  datatype Option<+T> = None | Some(value: T)
}
