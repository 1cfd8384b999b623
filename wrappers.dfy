/** Optional values, and JavaScript's `||` fallback on optional strings. */
module Wrappers {

  /** A value that may be absent (`undefined` or `null` in the front end). */
  datatype Option<+T> = None | Some(value: T) {

    /** The wrapped value, or `default` when absent. */
    function GetOr(default: T): T {
      match this
      case Some(v) => v
      case None => default
    }
  }

  /** True when an optional string is truthy in JavaScript: present and not "". */
  predicate Truthy(o: Option<string>) {
    o.Some? && o.value != ""
  }

  /** JavaScript's `o || fallback` for an optional string. */
  function OrElse(o: Option<string>, fallback: string): (r: string)
    ensures Truthy(o) ==> r == o.value
    ensures !Truthy(o) ==> r == fallback
  {
    if Truthy(o) then o.value else fallback
  }

  /** JavaScript's string conversion of an optional string: an absent value prints as "undefined". */
  function ShowOptional(o: Option<string>): string {
    match o
    case Some(s) => s
    case None => "undefined"
  }

  /** JavaScript's string conversion of a nullable string: an absent value prints as "null". */
  function ShowNullable(o: Option<string>): string {
    match o
    case Some(s) => s
    case None => "null"
  }
}
