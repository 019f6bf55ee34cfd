/** The usual optional value, for the source's `null`, `undefined` and absent keys. */
module Options {

  datatype Option<+T> = None | Some(value: T) {

    function GetOr(default: T): T {
      match this
      case Some(v) => v
      case None => default
    }
  }

  /** JavaScript's `!s` for a string that may be null: null and "" are both falsy. */
  predicate Falsy(s: Option<string>) {
    s.None? || s.value == ""
  }
}
