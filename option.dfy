/** The optional values of the source (`T | undefined`). */
module Options {

  datatype Option<T> = None | Some(value: T) {

    /** The value, or `fallback` when absent (`x ?? fallback`). */
    function GetOr(fallback: T): T {
      match this
      case Some(v) => v
      case None => fallback
    }
  }
}
