/** An optional value: Go's nil, absent map entry or unset field. */
module Options {
  datatype Option<+T> = None | Some(value: T)
}
