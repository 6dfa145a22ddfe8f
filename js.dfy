/** The few JavaScript value rules the storefront's handlers lean on. */
module Js {

  /** A value that may be missing: an absent field, `undefined` or `null`. */
  datatype Option<+T> = None | Some(value: T)
  {
    function GetOr(default: T): T
    {
      match this
      case Some(v) => v
      case None => default
    }
  }

  /** `v || fallback` on a string field that may be missing: a missing or
      empty string (the falsy ones) gives way to the fallback. */
  function Or(v: Option<string>, fallback: string): (r: string)
    ensures r == fallback || (v == Some(r) && r != "")
    ensures v.Some? && v.value != "" ==> r == v.value
  {
    if v.Some? && v.value != "" then v.value else fallback
  }

  /** `v1 || v2 || fallback`: the first non-empty of two optional strings. */
  function Or2(v1: Option<string>, v2: Option<string>, fallback: string): (r: string)
    ensures r == fallback || (v1 == Some(r) && r != "") || (v2 == Some(r) && r != "")
    ensures v1.Some? && v1.value != "" ==> r == v1.value
    ensures (v1.None? || v1.value == "") && v2.Some? && v2.value != "" ==> r == v2.value
  {
    Or(v1, Or(v2, fallback))
  }
}
