/** The optional value used by the lobby model for "a message or nothing" and "a socket or null". */
module Options {
  datatype Option<T> = None | Some(value: T)
}
