/** Python's `None`-or-value, used for every optional field of the model. */
module Optional {

  datatype Option<+T> = None | Some(value: T) {

    /** The value, or `default` when absent. */
    function GetOr(default: T): T {
      match this
      case Some(v) => v
      case None => default
    }

    /** This option when it holds a value, otherwise `fallback`. */
    function Else(fallback: Option<T>): Option<T> {
      if Some? then this else fallback
    }
  }
}
