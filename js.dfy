/**
 * The JavaScript values the front end inspects, and the truthiness rules its
 * guards rely on (`if (x)`, `x || y`, `!x`).
 */
module Js {
  import opened Wrappers

  /**
   * A JavaScript value as far as the modelled code looks at it. Numbers are
   * integers (no NaN); a `File` is known by its name; any other object is opaque.
   */
  datatype Value = Null | Undefined | Bool(b: bool) | Num(n: int) | Str(s: string) | File(name: string) | Object

  /** `!!v`: null, undefined, false, 0 and the empty string are falsy. */
  predicate Truthy(v: Value) {
    match v
    case Null => false
    case Undefined => false
    case Bool(b) => b
    case Num(n) => n != 0
    case Str(s) => s != ""
    case File(_) => true
    case Object => true
  }

  /** A string that may be missing (`null`), as `localStorage.getItem` or `searchParams.get` return it. */
  predicate PresentText(s: Option<string>) {
    s.Some? && s.value != ""
  }

  /** `a || b` on two strings. */
  function OrText(a: string, b: string): (r: string)
    ensures r == a || r == b
    ensures r == "" <==> a == "" && b == ""
  {
    if a != "" then a else b
  }

  /** The error text shown after a failed request: the server's message when it sent a non-empty one, else the fallback. */
  function MessageOr(message: Option<string>, fallback: string): (r: string)
    ensures PresentText(message) ==> r == message.value
    ensures !PresentText(message) ==> r == fallback
  {
    if PresentText(message) then message.value else fallback
  }
}
