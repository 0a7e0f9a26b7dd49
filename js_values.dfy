/**
 * JavaScript values as the dashboard pages see them in API records:
 * a field is either absent (`undefined`, or `null`, which the model does
 * not tell apart) or present, and the `x || fallback` idiom treats the
 * empty string and the number 0 as absent too.
 */
module JsValues {

  datatype Option<+T> = None | Some(value: T)

  /** A string operand is truthy when it is present and not empty. */
  predicate Truthy(v: Option<string>) {
    v.Some? && v.value != ""
  }

  /** `v || fallback` on an optional string. */
  function StrOr(v: Option<string>, fallback: string): string
  {
    if Truthy(v) then v.value else fallback
  }

  /** `v || fallback` on an optional number: 0 is falsy like a missing value. */
  function NumOr(v: Option<int>, fallback: int): int
  {
    if v.Some? && v.value != 0 then v.value else fallback
  }

  /** `${v}` inside a template literal: a missing value prints as "undefined". */
  function Interpolate(v: Option<string>): string
  {
    match v
    case Some(s) => s
    case None => "undefined"
  }
}
