/** Python's `None`-or-value, as the plugin's functions return it. */
module Wrappers {

  datatype Option<+T> = None | Some(value: T) {

    /** The value if present, otherwise `default` (a `dict.get` with a default). */
    function GetOr(default: T): T {
      if Some? then value else default
    }
  }
}
