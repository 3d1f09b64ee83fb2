/**
  The JavaScript values the provider reads and writes (parsed JSON bodies,
  notification fields, packet records) together with the language rules the
  source leans on: truthiness, property reads, the loose `==` against a
  number, `> 0`, and what survives a JSON.stringify / JSON.parse round trip.
 */
module JsValues {
  import opened Options
  import opened NumberText
  import opened CommaLists

  /** A JavaScript value; objects are finite maps from own keys to values. */
  datatype JsValue =
    | Undefined
    | Null
    | Bool(b: bool)
    | Num(n: int)
    | Str(s: string)
    | Arr(items: seq<JsValue>)
    | Obj(fields: map<string, JsValue>)

  /** `undefined` and `null`: the values whose property reads throw a TypeError. */
  predicate Nullish(v: JsValue) {
    v.Undefined? || v.Null?
  }

  /** ToBoolean: what an `if (v)` or `a && b` test sees. */
  predicate Truthy(v: JsValue) {
    match v
    case Undefined => false
    case Null => false
    case Bool(b) => b
    case Num(n) => n != 0
    case Str(s) => s != ""
    case Arr(_) => true
    case Obj(_) => true
  }

  /**
    The property read `v.key` on a value that is not nullish. Only objects have
    own data keys here; the keys the provider reads ("data", "id", "code",
    "resolved", "title", ...) are not inherited by strings, arrays or numbers.
   */
  function Prop(v: JsValue, key: string): (r: JsValue)
    requires !Nullish(v)
    ensures v.Obj? && key in v.fields ==> r == v.fields[key]
    ensures !(v.Obj? && key in v.fields) ==> r == Undefined
  {
    if v.Obj? && key in v.fields then v.fields[key] else Undefined
  }

  /** ToString; an array prints as its elements joined by ",", nullish elements as empty text. */
  function ToStr(v: JsValue): string {
    match v
    case Undefined => "undefined"
    case Null => "null"
    case Bool(b) => if b then "true" else "false"
    case Num(n) => IntToDecimal(n)
    case Str(s) => s
    case Arr(items) =>
      Join(seq(|items|, i requires 0 <= i < |items| =>
        if Nullish(items[i]) then "" else ToStr(items[i])))
    case Obj(_) => "[object Object]"
  }

  /** ToNumber after ToPrimitive; `None` is NaN. */
  function ToNumber(v: JsValue): Option<int> {
    match v
    case Undefined => None
    case Null => Some(0)
    case Bool(b) => Some(if b then 1 else 0)
    case Num(n) => Some(n)
    case Str(s) => StringToNumber(s)
    case Arr(_) => StringToNumber(ToStr(v))
    case Obj(_) => StringToNumber(ToStr(v))
  }

  /**
    The loose comparison `v == n` against a number (IsLooselyEqual in ECMA-262):
    `null` and `undefined` equal no number; every other value is converted to a
    number first.
   */
  predicate LooseEqualsNumber(v: JsValue, n: int) {
    !Nullish(v) && ToNumber(v) == Some(n)
  }

  /** The relational test `v > 0`; NaN compares false. */
  predicate GreaterThanZero(v: JsValue) {
    ToNumber(v).Some? && ToNumber(v).value > 0
  }

  /** A value JSON can carry: no `undefined` anywhere inside it. */
  predicate IsJson(v: JsValue) {
    match v
    case Undefined => false
    case Arr(items) => forall i :: 0 <= i < |items| ==> IsJson(items[i])
    case Obj(fields) => forall k :: k in fields ==> IsJson(fields[k])
    case _ => true
  }

  /**
    The value JSON.parse reads back from the text JSON.stringify writes for
    `v`: object members whose value is `undefined` are dropped and `undefined`
    array elements become `null`. A top-level `undefined` has no text and is
    kept as `Undefined`.
   */
  function JsonImage(v: JsValue): JsValue {
    match v
    case Arr(items) =>
      Arr(seq(|items|, i requires 0 <= i < |items| =>
        if items[i].Undefined? then Null else JsonImage(items[i])))
    case Obj(fields) =>
      Obj(map k | k in fields && !fields[k].Undefined? :: JsonImage(fields[k]))
    case _ => v
  }

  /** The text JSON.stringify produces, represented by the value it parses back to. */
  datatype JsonText = JsonText(image: JsValue)

  function Stringify(v: JsValue): JsonText {
    JsonText(JsonImage(v))
  }

  function Parse(t: JsonText): JsValue {
    t.image
  }

  /** Whatever goes in, what comes back out of JSON text is JSON: no `undefined` below the top. */
  lemma {:induction false} JsonImageIsJson(v: JsValue)
    requires !v.Undefined?
    ensures IsJson(JsonImage(v))
  {
    match v
    case Arr(items) =>
      forall i | 0 <= i < |items|
        ensures IsJson(JsonImage(v).items[i])
      {
        if !items[i].Undefined? {
          JsonImageIsJson(items[i]);
        }
      }
    case Obj(fields) =>
      forall k | k in JsonImage(v).fields
        ensures IsJson(JsonImage(v).fields[k])
      {
        JsonImageIsJson(fields[k]);
      }
    case _ =>
  }

  /** A JSON value survives a JSON.stringify / JSON.parse round trip unchanged. */
  lemma {:induction false} JsonRoundTrip(v: JsValue)
    requires IsJson(v)
    ensures Parse(Stringify(v)) == v
  {
    match v
    case Arr(items) =>
      forall i | 0 <= i < |items|
        ensures JsonImage(items[i]) == items[i]
      {
        JsonRoundTrip(items[i]);
      }
      assert JsonImage(v).items == items;
    case Obj(fields) =>
      forall k | k in fields
        ensures JsonImage(fields[k]) == fields[k]
      {
        JsonRoundTrip(fields[k]);
      }
      assert JsonImage(v).fields == fields;
    case _ =>
  }

  /** The loose `==` sees through the text an integer prints as: `"20301" == 20301`. */
  lemma LooseEqualsNumberOnText(m: int, n: int)
    ensures LooseEqualsNumber(Str(IntToDecimal(m)), n) <==> m == n
  {
    IntToDecimalRoundTrip(m);
    var r := ToNumber(Str(IntToDecimal(m)));
    assert r == Some(m);
  }
}
