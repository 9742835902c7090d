/**
 A value that may be missing: a map lookup, an optional argument, an array slot without an element.
 */
module Options {
  datatype Option<T> = None | Some(value: T)
}
