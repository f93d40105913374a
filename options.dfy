/** The absent-or-present value used wherever the channel code tests for
    `undefined` or `null`. */
module Options {

  datatype Option<T> = None | Some(value: T) {

    /** The value if present, otherwise the given default (lodash `_.defaults`). */
    function GetOr(default: T): (r: T)
      ensures Some? ==> r == value
      ensures None? ==> r == default
    {
      match this
      case Some(v) => v
      case None => default
    }
  }
}
