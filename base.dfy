/** Optional values: JavaScript's `null`/`undefined` on one side, a present value on the other. */
module Base {

  datatype Option<+T> = None | Some(value: T) {

    /** The value, or `default` when absent. */
    function GetOr(default: T): T
    {
      match this
      case Some(v) => v
      case None => default
    }
  }
}
