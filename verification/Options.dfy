module Options {
  /** An optional value; `None` also stands for the zero value the engine uses as "absent". */
  datatype Option<+T> = None | Some(value: T)
}
