/** A value that may be absent: a dictionary key that was not sent, a config field left unset. */
module Optional {
  datatype Option<T> = None | Some(value: T)
}
