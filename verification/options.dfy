/** An optional value: `None` stands for "nothing to show", the case the
    dashboard reports instead of dividing by zero or indexing an empty list. */
module Options {

  datatype Option<+T> = None | Some(value: T)
}
