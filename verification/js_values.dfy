/** JavaScript values as the components see them: a property that may be
    missing, an operation that may throw, and the truthiness rules that the
    `a || b` fallbacks and `x && <view>` guards rely on. */
module JsValues {

  /** `None` stands for both `undefined` and `null`. */
  datatype Option<+T> = None | Some(value: T)

  /** A value, or the exception thrown while computing it. */
  datatype Result<+T, +E> = Ok(value: T) | Err(error: E)

  /** The exceptions the modelled code can raise. */
  datatype JsError =
    | TypeError(reason: string)   // a property read or call on `undefined`

  type MaybeString = Option<string>

  /** A string property is truthy when present and non-empty. */
  predicate TruthyString(v: MaybeString) {
    v.Some? && v.value != ""
  }

  /** A number property is truthy when present and non-zero (NaN is not modelled). */
  predicate TruthyReal(v: Option<real>) {
    v.Some? && v.value != 0.0
  }

  predicate TruthyInt(v: Option<int>) {
    v.Some? && v.value != 0
  }

  /** `a || b` on two string-valued properties. */
  function OrString(a: MaybeString, b: MaybeString): (r: MaybeString)
    ensures TruthyString(a) ==> r == a
    ensures !TruthyString(a) ==> r == b
    ensures TruthyString(r) <==> TruthyString(a) || TruthyString(b)
  {
    if TruthyString(a) then a else b
  }

  /** `a || fallback` where the fallback is a string literal. */
  function OrDefault(a: MaybeString, fallback: string): (r: string)
    ensures TruthyString(a) ==> r == a.value
    ensures !TruthyString(a) ==> r == fallback
    ensures fallback != "" ==> r != ""
  {
    if TruthyString(a) then a.value else fallback
  }
}
