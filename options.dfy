/** An optional value: `None` stands for a null pointer, an unset filter or an empty input line. */
module Options {
  datatype Option<+T> = None | Some(value: T)
}
