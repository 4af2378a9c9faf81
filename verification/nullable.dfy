/** Optional values: TypeScript's `T | null` and `T | undefined`, and the
    JavaScript `||` operator as this code base uses it on optional strings. */
module Nullable {

  /** `null` / `undefined` (None) or a present value. */
  datatype Option<+T> = None | Some(value: T) {

    /** The present value, or `default` when absent. */
    function GetOr(default: T): T
    {
      match this
      case Some(v) => v
      case None => default
    }
  }

  /** A string value JavaScript treats as truthy: present and non-empty. */
  predicate Truthy(m: Option<string>)
  {
    m.Some? && m.value != ""
  }

  /** JavaScript's `m || fallback` where `m` is an optional string: both
      `undefined`/`null` and the empty string are falsy. */
  function OrElse(m: Option<string>, fallback: string): (r: string)
    ensures r == fallback || (m == Some(r) && r != "")
    ensures Truthy(m) <==> (m.Some? && r == m.value && r != "")
    ensures r == "" ==> fallback == ""
  {
    match m
    case Some(v) => if v != "" then v else fallback
    case None => fallback
  }
}
