/** The usual optional value; it stands for the source's `Option`, `None` and `null`. */
module Options {
  datatype Option<+T> = None | Some(value: T)
}
