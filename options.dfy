/** An optional value, for searches that may find nothing and conversions that may fail. */
module Options {

  datatype Option<T> = None | Some(value: T)
}
