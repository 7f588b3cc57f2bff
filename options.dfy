/** The optional value used wherever the client may produce nothing: a sampled-out line,
    an unparsable wire field, a nil error. */
module Options {
  datatype Option<+T> = None | Some(value: T)
}
