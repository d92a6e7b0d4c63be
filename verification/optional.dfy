/** A value that may be absent: JavaScript's `undefined` where the server reads a
    missing property, a failed `find`, or an index past the end of an array. */
module Optional {
  datatype Option<T> = None | Some(value: T)
}
