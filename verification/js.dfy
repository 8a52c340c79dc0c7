/** The few JavaScript value rules the handlers and components lean on:
    optional values, truthiness (`!x`) and the `x || fallback` default. */
module Js {

  /** `null`/`undefined` versus a present value. */
  datatype Option<+T> = None | Some(value: T)

  /** A JSON value as a parsed request body may carry it, reduced to what
      truthiness needs. Numbers are reals; NaN is not represented. */
  datatype Value = Null | Bool(b: bool) | Num(x: real) | Str(s: string) | Compound

  /** JavaScript truthiness: `null`, `false`, `0` and `""` are falsy; every
      object and array is truthy. */
  predicate Truthy(v: Value)
  {
    match v
    case Null => false
    case Bool(b) => b
    case Num(x) => x != 0.0
    case Str(s) => s != ""
    case Compound => true
  }

  /** Truthiness of a possibly missing value (`undefined` is falsy). */
  predicate TruthyOpt(v: Option<Value>)
  {
    v.Some? && Truthy(v.value)
  }

  /** `searchParams.get(name)` yields `null` or a string; `!p` rejects both
      `null` and the empty string. */
  predicate Given(p: Option<string>)
  {
    p.Some? && p.value != ""
  }

  /** `p || fallback` on a query parameter. */
  function OrElse(p: Option<string>, fallback: string): (r: string)
    ensures p.Some? && Truthy(Str(p.value)) ==> r == p.value
    ensures p.None? || !Truthy(Str(p.value)) ==> r == fallback
    ensures r == fallback || Given(p)
  {
    if p.Some? && p.value != "" then p.value else fallback
  }
}
