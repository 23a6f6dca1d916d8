/** A value that may be absent: a NULL array entry, a descriptor of -1. */
module Options {

  datatype Option<T> = None | Some(value: T) {

    function Or(default: T): T {
      match this
      case None => default
      case Some(v) => v
    }
  }
}
