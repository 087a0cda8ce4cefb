/** The optional value used by every other module: a nullable pointer, an unset
    field or a missing dictionary entry. */
module Options {
  datatype Option<+T> = None | Some(value: T) {
    /** The value, or `default` when there is none. */
    function GetOr(default: T): T {
      if Some? then value else default
    }
  }
}
