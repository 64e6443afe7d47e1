/** A value that may be absent: a JavaScript property that is `undefined`,
    a query argument that was not sent. */
module Options {

  datatype Option<+T> = None | Some(value: T) {

    /** The carried value, or `default` when absent */
    function GetOr(default: T): T {
      match this
      case Some(v) => v
      case None => default
    }
  }
}
