/** Optional values: JavaScript's `undefined`/`null`/`NaN` results and absent store keys. */
module Options {

  datatype Option<T> = None | Some(value: T) {

    /** The wrapped value, or `default` when there is none. */
    function GetOr(default: T): T {
      match this
      case Some(v) => v
      case None => default
    }
  }
}
