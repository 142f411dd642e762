/**
 * The JavaScript values that flow through the dashboard: parsed JSON bodies,
 * plus `undefined`, which a missing property or an unset state slot yields.
 */
module JsValue {
  import opened Wrappers
  import JsString

  /** Numbers are integers here; fractions and NaN are not modelled. */
  datatype Value =
    | Undefined
    | Null
    | Bool(b: bool)
    | Num(n: int)
    | Str(s: string)
    | Arr(items: seq<Value>)
    | Obj(fields: map<string, Value>)

  /** The exceptions the modelled expressions can raise. */
  datatype JsError =
    | TypeError   // property access on null/undefined, calling a missing method
    | RangeError  // `toISOString` on an invalid date

  const EmptyArray: Value := Arr([])

  /** JavaScript truthiness (`if (v)`, `!v`, `v || w`). */
  predicate Truthy(v: Value) {
    match v
    case Undefined => false
    case Null => false
    case Bool(b) => b
    case Num(n) => n != 0
    case Str(s) => s != ""
    case Arr(_) => true
    case Obj(_) => true
  }

  /** `v || w`: the left operand when it is truthy, otherwise the right one. */
  function Or(v: Value, w: Value): (r: Value)
    ensures Truthy(v) ==> r == v
    ensures !Truthy(v) ==> r == w
  {
    if Truthy(v) then v else w
  }

  /**
   * A value whose properties can be read: everything but `null` and
   * `undefined`, on which `v.key` throws a TypeError.
   */
  predicate Readable(v: Value) {
    !v.Undefined? && !v.Null?
  }

  /**
   * `v.key`. Reading a property of `null` or `undefined` throws; an object
   * yields its entry or `undefined`; other values have none of the keys this
   * code reads, so they yield `undefined`.
   */
  function Prop(v: Value, key: string): (r: Result<Value, JsError>)
    ensures r.Err? <==> !Readable(v)
    ensures v.Obj? && key in v.fields ==> r == Ok(v.fields[key])
    ensures v.Obj? && key !in v.fields ==> r == Ok(Undefined)
  {
    match v
    case Undefined => Err(TypeError)
    case Null => Err(TypeError)
    case Obj(m) => Ok(if key in m then m[key] else Undefined)
    case _ => Ok(Undefined)
  }

  /** `v?.key`: optional chaining turns the throwing cases into `undefined`. */
  function OptProp(v: Value, key: string): (r: Value)
    ensures !Readable(v) ==> r == Undefined
    ensures Readable(v) ==> Ok(r) == Prop(v, key)
  {
    match Prop(v, key)
    case Ok(w) => w
    case Err(_) => Undefined
  }

  /** `v.length` where it is defined (arrays, strings); `None` is `undefined`. */
  function Length(v: Value): (r: Option<nat>)
    ensures v.Arr? ==> r == Some(|v.items|)
    ensures v.Str? ==> r == Some(|v.s|)
    ensures !(v.Arr? || v.Str?) ==> r.None?
  {
    match v
    case Arr(xs) => Some(|xs|)
    case Str(s) => Some(|s|)
    case _ => None
  }

  /** `String(v)`, the conversion `"text " + v` applies to its right operand. */
  function ToJsString(v: Value): (r: string)
    ensures v.Str? ==> r == v.s
    ensures v.Bool? ==> r == (if v.b then "true" else "false")
    ensures v.Num? && v.n >= 0 ==> JsString.ToNumber(r) == Some(v.n)
    ensures v.Num? && v.n < 0 ==> |r| > 1 && r[0] == '-' && JsString.ToNumber(r[1..]) == Some(-v.n)
    ensures v.Arr? && v.items == [] ==> r == ""
    ensures v.Arr? && |v.items| == 1 && v.items[0].Str? ==> r == v.items[0].s
    ensures v.Arr? && |v.items| == 2 && v.items[0].Str? && v.items[1].Str?
            ==> r == v.items[0].s + "," + v.items[1].s
    decreases v
  {
    match v
    case Undefined => "undefined"
    case Null => "null"
    case Bool(b) => if b then "true" else "false"
    case Num(n) =>
      if n >= 0 then JsString.NumberOfShowNat(n); JsString.ShowInt(n)
      else
        JsString.NumberOfShowNat(-n);
        assert ("-" + JsString.ShowNat(-n))[1..] == JsString.ShowNat(-n);
        JsString.ShowInt(n)
    case Str(s) => s
    case Arr(xs) =>
      // the two-element case unfolds `JoinElements` once more than Dafny does
      if |xs| == 2 && xs[1].Str? then
        assert xs[1..] == [xs[1]];
        assert JoinElements([xs[1]]) == ToJsString(xs[1]) == xs[1].s;
        JoinElements(xs)
      else JoinElements(xs)
    case Obj(_) => "[object Object]"
  }

  /** `xs.join(",")`, where `null` and `undefined` elements print as empty. */
  function JoinElements(xs: seq<Value>): string
    decreases xs
  {
    if xs == [] then ""
    else
      var head := if !Readable(xs[0]) then "" else ToJsString(xs[0]);
      if |xs| == 1 then head else head + "," + JoinElements(xs[1..])
  }
}
