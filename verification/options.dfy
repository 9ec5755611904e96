/** A value that may be absent: JavaScript's `undefined` in a search result or
    an optional object in a parsed document. */
module Options {

  datatype Option<T> = None | Some(value: T)
}
