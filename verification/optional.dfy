/** An optional value: a JavaScript field that may be `undefined`, a query that
    may find nothing. */
module Optional {

  datatype Option<T> = None | Some(value: T) {

    /** The value, or `default` when there is none (a destructuring default). */
    function GetOr(default: T): T {
      if Some? then value else default
    }
  }
}
