/** The loosely typed values the client handles — parsed JSON bodies, route
    parameters, native-module results — and the JavaScript operators it
    applies to them: truthiness, `||`, `??`, optional chaining, destructuring
    defaults, `String(v)` and numeric coercion.

    Numbers are the integral ones plus NaN. An object is its own properties;
    none of the keys the client reads is an inherited property. */
module JsValue {

  import opened Optional
  import opened JsText

  datatype JsVal =
    | Undefined
    | Null
    | Bool(b: bool)
    | Num(n: int)
    | NaN
    | Str(s: string)
    | Arr(elems: seq<JsVal>)
    | Obj(props: map<string, JsVal>)

  /** `{}` */
  const EmptyObject: JsVal := Obj(map[])

  /** The values `??` and `?.` treat as absent. */
  predicate Nullish(v: JsVal) {
    v.Undefined? || v.Null?
  }

  /** ToBoolean (section 7.1.2 of ECMA-262). */
  predicate Truthy(v: JsVal) {
    match v
    case Undefined => false
    case Null => false
    case Bool(b) => b
    case Num(n) => n != 0
    case NaN => false
    case Str(s) => s != ""
    case Arr(_) => true
    case Obj(_) => true
  }

  /** The falsy values, listed one by one. */
  const FalsyValues: set<JsVal> := {Undefined, Null, Bool(false), Num(0), NaN, Str("")}

  lemma FalsyValuesAreTheFalsy(v: JsVal)
    ensures !Truthy(v) <==> v in FalsyValues
  {
  }

  /** `a || b` */
  function Or(a: JsVal, b: JsVal): JsVal {
    if Truthy(a) then a else b
  }

  /** `a ?? b` */
  function Coalesce(a: JsVal, b: JsVal): JsVal {
    if Nullish(a) then b else a
  }

  /** A destructuring default `{ key = d } = …`: it applies only when the
      property is `undefined`, not when it is `null`. */
  function WithDefault(v: JsVal, d: JsVal): JsVal {
    if v.Undefined? then d else v
  }

  /** `a || b` picks an operand, and is truthy exactly when one of them is. */
  lemma OrPicksFirstTruthy(a: JsVal, b: JsVal)
    ensures Or(a, b) == a || Or(a, b) == b
    ensures Truthy(Or(a, b)) <==> Truthy(a) || Truthy(b)
    ensures Truthy(a) ==> Or(a, b) == a
  {
  }

  /** `a ?? b` keeps every present value, falsy ones included. */
  lemma CoalesceKeepsFalsyValues(a: JsVal, b: JsVal)
    ensures !Nullish(a) ==> Coalesce(a, b) == a
    ensures Nullish(a) ==> Coalesce(a, b) == b
    ensures a in {Bool(false), Num(0), NaN, Str("")} ==> Coalesce(a, b) == a && Or(a, b) == b
  {
  }

  /** `v?.key`. For an object it is the property (or `undefined`); every
      other value, `null` and `undefined` included, has none of the keys the
      client reads. A plain `v.key` is the same read except that it throws
      on a nullish `v`; callers check `Nullish` first. */
  function Prop(v: JsVal, key: string): JsVal {
    match v
    case Obj(m) => if key in m then m[key] else Undefined
    case _ => Undefined
  }

  /** `v?.[i]` for an array, a string (a one-character string) or an object
      (the property named by the index). */
  function Index(v: JsVal, i: nat): JsVal {
    match v
    case Arr(es) => if i < |es| then es[i] else Undefined
    case Str(s) => if i < |s| then Str([s[i]]) else Undefined
    case Obj(_) => Prop(v, IntToDecimal(i))
    case _ => Undefined
  }

  /** The TypeError message of reading `key` of a nullish value, in the
      wording of the Hermes engine. */
  function NullReadMessage(base: JsVal, key: string): (m: string)
    ensures m != ""
  {
    "Cannot read property '" + key + "' of " + (if base.Null? then "null" else "undefined")
  }

  /** `String(v)` (ToString, section 7.1.17 of ECMA-262). Array elements that
      are nullish render empty; elements are joined by commas. */
  function ToJsString(v: JsVal): string {
    match v
    case Undefined => "undefined"
    case Null => "null"
    case Bool(b) => if b then "true" else "false"
    case Num(n) => IntToDecimal(n)
    case NaN => "NaN"
    case Str(s) => s
    case Arr(es) =>
      JoinWithCommas(seq(|es|, i requires 0 <= i < |es| => if Nullish(es[i]) then "" else ToJsString(es[i])))
    case Obj(_) => "[object Object]"
  }

  function JoinWithCommas(parts: seq<string>): string {
    if |parts| == 0 then ""
    else if |parts| == 1 then parts[0]
    else JoinWithCommas(parts[..|parts| - 1]) + "," + parts[|parts| - 1]
  }

  /** `new Error(v).message`: the empty string for `undefined`, else
      `String(v)`. */
  function ErrorMessage(v: JsVal): string {
    if v.Undefined? then "" else ToJsString(v)
  }

  /** `e.message || fallback` for an Error `e`, whose message is a string. */
  function MessageOr(message: string, fallback: string): string {
    if message != "" then message else fallback
  }

  /** StringToNumber (section 7.1.4.1.1 of ECMA-262) for blank strings and
      signed decimal integers; every other string is NaN here. */
  function StringToNumber(s: string): (r: JsVal)
    ensures r.Num? || r.NaN?
    ensures AllSpace(s) ==> r == Num(0)
  {
    var t := Trim(s);
    if t == "" then Num(0)
    else
      match ParseInteger(t)
      case Some(n) => Num(n)
      case None => NaN
  }

  /** ToNumber (section 7.1.4 of ECMA-262). Arrays and objects go through
      their string form, as ToPrimitive does for them. */
  function ToNumber(v: JsVal): (r: JsVal)
    ensures r.Num? || r.NaN?
    ensures v.Num? ==> r == v
  {
    match v
    case Undefined => NaN
    case Null => Num(0)
    case Bool(b) => Num(if b then 1 else 0)
    case Num(_) => v
    case NaN => NaN
    case Str(s) => StringToNumber(s)
    case _ => StringToNumber(ToJsString(v))
  }

  /** A number survives the trip through its string form. */
  lemma NumberStringRoundTrip(n: int)
    ensures ToNumber(Str(ToJsString(Num(n)))) == Num(n)
  {
    var t := IntToDecimal(n);
    TrimKeepsTrimmed(t);
    IntToDecimalRoundTrip(n);
  }

  /** An Error built from `x || fallback` with a non-empty string fallback
      has the fallback as its message when `x` is falsy, and `String(x)`
      otherwise. */
  lemma ErrorMessageOfOr(x: JsVal, fallback: string)
    requires fallback != ""
    ensures !Truthy(x) ==> ErrorMessage(Or(x, Str(fallback))) == fallback
    ensures Truthy(x) ==> ErrorMessage(Or(x, Str(fallback))) == ToJsString(x)
  {
  }
}
