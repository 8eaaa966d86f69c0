/** An absent-or-present value: JavaScript's `undefined`/`null` versus a value. */
module Optional {

  datatype Option<+T> = None | Some(value: T) {

    /** The carried value, or `fallback` when there is none (JavaScript's `x || fallback`
        for values that are either missing or an object). */
    function Or(fallback: T): T {
      match this
      case Some(v) => v
      case None => fallback
    }
  }
}
