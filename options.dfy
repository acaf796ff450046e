/** An optional value: a DOM attribute or element that may be absent,
    a JSON field that may be missing. */
module Options {

  datatype Option<+T> = None | Some(value: T)
}
