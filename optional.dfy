/** A value that may be absent: an upload that was not made, a JSON body
    that does not decode. */
module Optional {
  datatype Option<T> = None | Some(value: T)
}
