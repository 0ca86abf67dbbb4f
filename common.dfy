// Values shared by every page: optional values (JavaScript's undefined or a
// failed request), toast notifications, the page container's origin and the
// routes a page may navigate to.
module Common {

  datatype Option<T> = None | Some(value: T)

  /** The type argument of a toast: success, error or warning. */
  datatype ToastKind = Success | Error | Warning

  datatype Toast = Toast(message: string, kind: ToastKind)

  /** The top-left corner of the `.pdf-container` element's bounding rectangle. */
  datatype Origin = Origin(left: int, top: int)

  /** A binary response body (the finalized PDF). */
  type Bytes = seq<bv8>
}

// JavaScript's `value || fallback` for the value kinds the pages coerce.
// A number is falsy when it is 0 or NaN, a string when it is empty, a boolean
// when it is false; `None` stands for undefined, and for NaN where a parsed
// number is meant (parseInt of text that does not start with a digit).
module Coercion {
  import opened Common

  /** `v || fallback` for a number. */
  function NumberOr(v: Option<int>, fallback: int): (r: int)
    ensures v.Some? && v.value != 0 ==> r == v.value
    ensures v.None? || v.value == 0 ==> r == fallback
  {
    if v.Some? && v.value != 0 then v.value else fallback
  }

  /** `v || fallback` for a string. */
  function StringOr(v: Option<string>, fallback: string): (r: string)
    ensures v.Some? && v.value != "" ==> r == v.value
    ensures v.None? || v.value == "" ==> r == fallback
  {
    if v.Some? && v.value != "" then v.value else fallback
  }

  /** `v || false` for a boolean: only an explicit true survives. */
  function BoolOrFalse(v: Option<bool>): (r: bool)
    ensures r <==> v == Some(true)
  {
    v.Some? && v.value
  }
}
