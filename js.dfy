/** Values as the JavaScript code sees them: a field of a request body or of a
    fetched record is either absent (`undefined` or `null`, both written None)
    or present, and `x || d` falls back to `d` whenever `x` is falsy. */
module Js {

  datatype Option<+T> = None | Some(value: T)

  /** The outcome of an awaited call that either resolves to a value or throws
      an Error carrying a message. */
  datatype Result<+T> = Ok(value: T) | Err(message: string)

  /** The outcome of an awaited call whose resolved value is not used. */
  datatype Outcome = Pass | Fail(message: string)

  /** A string field is truthy when it is present and not "". */
  predicate StrTruthy(s: Option<string>) {
    s.Some? && s.value != ""
  }

  /** A numeric id is truthy when it is present and not 0. */
  predicate IntTruthy(x: Option<int>) {
    x.Some? && x.value != 0
  }

  /** A real number is truthy when it is present and not 0 (NaN is not modelled). */
  predicate RealTruthy(x: Option<real>) {
    x.Some? && x.value != 0.0
  }

  /** `s || d` for a string field and a string default. */
  function StrOr(s: Option<string>, d: string): (r: string)
  {
    if StrTruthy(s) then s.value else d
  }

  /** `a || b` where both sides may be absent. */
  function StrOrElse(a: Option<string>, b: Option<string>): (r: Option<string>)
  {
    if StrTruthy(a) then a else b
  }

  /** `s || null` for a string field. */
  function StrOrNull(s: Option<string>): (r: Option<string>)
  {
    if StrTruthy(s) then s else None
  }

  /** `x || null` for an integer field. */
  function IntOrNull(x: Option<int>): (r: Option<int>)
  {
    if IntTruthy(x) then x else None
  }

  /** `x || null` for a real-valued field. */
  function RealOrNull(x: Option<real>): (r: Option<real>)
  {
    if RealTruthy(x) then x else None
  }

  /** `x || 0` for a real-valued field. */
  function RealOrZero(x: Option<real>): (r: real)
  {
    if RealTruthy(x) then x.value else 0.0
  }
}
