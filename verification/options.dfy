/**
 Rust's standard `Option`, with the one combinator the applet uses.
 */
module Options {

  datatype Option<+T> = None | Some(value: T) {

    /** The carried value, or `default` when there is none. With `default`
        0 on a `u16` this is Rust's `unwrap_or_default`. */
    function UnwrapOr(default: T): T {
      match this
      case Some(v) => v
      case None => default
    }
  }
}
