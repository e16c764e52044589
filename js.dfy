/**
 * The JavaScript values the engine receives and the three ways its code
 * substitutes a default for a missing one.
 *
 * A raw input is what `new Decimal(...)` is handed: a number (or a numeric
 * string, which parses to the same number), `undefined`, `null`, `NaN`, or
 * something decimal.js cannot parse (a non-numeric string, a boolean, an
 * object), on which its constructor throws.
 */
module Js {

  datatype Option<+T> = None | Some(value: T)

  datatype Value =
    | Undefined
    | Null
    | NaN
    | Unparseable
    | Num(x: real)

  /** `v = d` in a destructuring pattern: only `undefined` is replaced. */
  function WithDefault(v: Value, d: Value): (r: Value)
    ensures v.Undefined? ==> r == d
    ensures !v.Undefined? ==> r == v
  {
    if v.Undefined? then d else v
  }

  /**
   * `x || d` on a stored number: a missing value (null or undefined) and a
   * zero are both falsy and are replaced; any other number is kept.
   */
  function Or(x: Option<real>, d: real): (r: real)
    ensures x.None? ==> r == d
    ensures x.Some? && x.value == 0.0 ==> r == d
    ensures x.Some? && x.value != 0.0 ==> r == x.value
  {
    match x
    case None => d
    case Some(v) => if v == 0.0 then d else v
  }

  /** `x ?? d` on a stored number: only a missing value is replaced, 0 is kept. */
  function Coalesce(x: Option<real>, d: real): (r: real)
    ensures x.None? ==> r == d
    ensures x.Some? ==> r == x.value
  {
    match x
    case None => d
    case Some(v) => v
  }
}
