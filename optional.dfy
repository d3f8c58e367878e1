/** Go's nil-able pointer, as a value: `None` is nil. */
module Optional {

  datatype Option<+T> = None | Some(value: T)
}
