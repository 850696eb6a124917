/** The JavaScript values a request payload can hold, and the few operators of
    the language the route handlers apply to them: truthiness, `typeof`,
    `isNaN`, the `in` operator, property access and the numeric comparisons.
    Numbers are modelled exactly (as reals) with NaN and the two infinities as
    separate values, so no floating point is involved. */
module JsValues {

  datatype Option<T> = None | Some(value: T)

  datatype JsValue =
    | Num(n: real)
    | NaN
    | PosInf
    | NegInf
    | Str(s: string)
    | Bool(b: bool)
    | Null
    | Undefined
    | Obj(fields: map<string, JsValue>)
    | Arr(elems: seq<JsValue>)

  /** JavaScript's ToBoolean: `!v` is `!Truthy(v)`. */
  predicate Truthy(v: JsValue) {
    match v
    case Num(x) => x != 0.0
    case NaN => false
    case PosInf => true
    case NegInf => true
    case Str(s) => s != ""
    case Bool(b) => b
    case Null => false
    case Undefined => false
    case Obj(_) => true
    case Arr(_) => true
  }

  /** The `typeof` operator (null and arrays are both "object"). */
  function TypeOf(v: JsValue): string {
    match v
    case Num(_) => "number"
    case NaN => "number"
    case PosInf => "number"
    case NegInf => "number"
    case Str(_) => "string"
    case Bool(_) => "boolean"
    case Undefined => "undefined"
    case Null => "object"
    case Obj(_) => "object"
    case Arr(_) => "object"
  }

  /** `typeof v === 'number' && !isNaN(v)`: `isNaN` is only reached on a number,
      where it holds of NaN alone. */
  predicate IsValidNumber(v: JsValue) {
    TypeOf(v) == "number" && !v.NaN?
  }

  /** `v >= lo` for a number `v` that is not NaN. */
  predicate AtLeast(v: JsValue, lo: real)
    requires IsValidNumber(v)
  {
    match v
    case Num(x) => x >= lo
    case PosInf => true
    case NegInf => false
  }

  /** `v <= hi` for a number `v` that is not NaN. */
  predicate AtMost(v: JsValue, hi: real)
    requires IsValidNumber(v)
  {
    match v
    case Num(x) => x <= hi
    case PosInf => false
    case NegInf => true
  }

  predicate IsDigit(c: char) {
    '0' <= c <= '9'
  }

  /** A key that names an array element: decimal digits without a leading zero. */
  predicate IsCanonicalIndex(k: string) {
    && |k| > 0
    && (forall i :: 0 <= i < |k| ==> IsDigit(k[i]))
    && (k[0] == '0' ==> |k| == 1)
  }

  function DigitValue(c: char): nat
    requires IsDigit(c)
  {
    c as int - '0' as int
  }

  function DigitsValue(k: string): nat
    requires forall i :: 0 <= i < |k| ==> IsDigit(k[i])
    decreases |k|
  {
    if |k| == 0 then 0
    else DigitsValue(k[..|k| - 1]) * 10 + DigitValue(k[|k| - 1])
  }

  /** The element index an array key names, if it names one. */
  function ArrayIndex(k: string): Option<nat> {
    if IsCanonicalIndex(k) then Some(DigitsValue(k)) else None
  }

  /** `k in v` for an object or an array: an array's own keys are "length" and
      the indices of its elements. Keys inherited from Object.prototype and
      Array.prototype are not modelled; no key the handlers ask for is one. */
  predicate HasProperty(v: JsValue, k: string)
    requires v.Obj? || v.Arr?
  {
    match v
    case Obj(m) => k in m
    case Arr(s) => k == "length" || (ArrayIndex(k).Some? && ArrayIndex(k).value < |s|)
  }

  /** Property access `v[k]`, or a destructured property: a key the value does
      not have reads as undefined. Primitive values have no property the
      handlers ask for. Accessing a property of null or undefined throws; the
      handlers deal with that case before calling this. */
  function Get(v: JsValue, k: string): (r: JsValue)
    ensures (v.Obj? || v.Arr?) && !HasProperty(v, k) ==> r == Undefined
    ensures v.Obj? && k in v.fields ==> r == v.fields[k]
  {
    match v
    case Obj(m) => if k in m then m[k] else Undefined
    case Arr(s) =>
      if k == "length" then Num(|s| as real)
      else if ArrayIndex(k).Some? && ArrayIndex(k).value < |s| then s[ArrayIndex(k).value]
      else Undefined
    case _ => Undefined
  }

  /** An array has no key that starts with something other than a digit,
      except "length". */
  lemma {:induction false} ArrayLacksLetterKey(s: seq<JsValue>, k: string)
    requires |k| > 0 && !IsDigit(k[0]) && k != "length"
    ensures !HasProperty(Arr(s), k)
  {
    assert !IsCanonicalIndex(k);
  }

  /** `!v || typeof v !== 'object'` lets exactly objects and arrays through. */
  lemma ObjectShapeAdmits(v: JsValue)
    ensures (Truthy(v) && TypeOf(v) == "object") <==> (v.Obj? || v.Arr?)
  {
  }

  /** The number check lets through the finite numbers and both infinities,
      and nothing else. */
  lemma ValidNumberCases(v: JsValue)
    ensures IsValidNumber(v) <==> (v.Num? || v.PosInf? || v.NegInf?)
  {
  }
}
