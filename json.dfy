/** Parsed JSON values as the JavaScript code sees them, with the conversions the code
    applies to them (`String(v)`, template interpolation, `?? default`), and JSON text
    codecs. Numbers are integers: the model never needs fractional JSON numbers. */
module Json {
  import opened Wrappers
  import Text

  datatype Json =
    | JNull
    | JBool(b: bool)
    | JNum(n: int)
    | JStr(s: string)
    | JArr(items: seq<Json>)
    | JObj(fields: map<string, Json>)

  /** A JavaScript number as validation and configuration rules see it: NaN, an
      infinity, or a finite value given by its floor and whether it is that integer
      exactly. */
  datatype JsNumber = NaN | PositiveInfinity | NegativeInfinity | Finite(floor: int, exact: bool)

  /** `typeof v === "object" && v !== null`: arrays are objects as well. */
  predicate IsObjectLike(v: Json) {
    v.JObj? || v.JArr?
  }

  /** Property access `v.name`; `None` is `undefined`. Non-objects have no properties. */
  function Get(v: Json, name: string): Option<Json> {
    if v.JObj? && name in v.fields then Some(v.fields[name]) else None
  }

  /** `v.name ?? fallback`. */
  function GetOr(v: Json, name: string, fallback: Json): (r: Json)
    ensures Get(v, name).Some? && !Get(v, name).value.JNull? ==> r == Get(v, name).value
    ensures Get(v, name).None? || Get(v, name).value.JNull? ==> r == fallback
  {
    match Get(v, name)
    case Some(x) => if x.JNull? then fallback else x
    case None => fallback
  }

  /** `String(v)` for a value that is neither null nor undefined; inside an array,
      null elements render as the empty string. */
  function JsString(v: Json): string
    decreases v, 1
  {
    match v
    case JNull => "null"
    case JBool(b) => if b then "true" else "false"
    case JNum(n) => Text.IntToDecimal(n)
    case JStr(s) => s
    case JArr(items) => JoinElements(items)
    case JObj(_) => "[object Object]"
  }

  function JoinElements(items: seq<Json>): string
    decreases items, 0
  {
    if |items| == 0 then ""
    else
      var first := if items[0].JNull? then "" else JsString(items[0]);
      if |items| == 1 then first else first + "," + JoinElements(items[1..])
  }

  /** `String(v ?? "")` where `None` is `undefined`. */
  function StringOrEmpty(v: Option<Json>): string {
    match v
    case None => ""
    case Some(JNull) => ""
    case Some(x) => JsString(x)
  }

  /** Template interpolation `${v}` where `None` is `undefined`. */
  function Interpolate(v: Option<Json>): string {
    match v
    case None => "undefined"
    case Some(x) => JsString(x)
  }

  /** `asText`: strings pass, anything else becomes "". */
  function AsText(v: Json): (r: string)
    ensures v.JStr? ==> r == v.s
    ensures !v.JStr? ==> r == ""
  {
    if v.JStr? then v.s else ""
  }

  /** `Array.isArray(v) ? v.map(asText).filter(Boolean) : []`: the string elements of an
      array, in order, without the empty ones. */
  function TextItems(v: Json): (r: seq<string>)
    ensures forall i :: 0 <= i < |r| ==> r[i] != ""
    ensures !v.JArr? ==> r == []
  {
    if v.JArr? then NonEmptyTexts(v.items) else []
  }

  function NonEmptyTexts(items: seq<Json>): (r: seq<string>)
    ensures forall i :: 0 <= i < |r| ==> r[i] != ""
    ensures |r| <= |items|
  {
    if items == [] then []
    else
      var t := AsText(items[0]);
      (if t == "" then [] else [t]) + NonEmptyTexts(items[1..])
  }

  /** A string stands in `NonEmptyTexts(items)` exactly when some item is that
      non-empty string. */
  lemma {:induction false} NonEmptyTextsMembers(items: seq<Json>, t: string)
    ensures t in NonEmptyTexts(items) <==> t != "" && JStr(t) in items
  {
    if items != [] {
      NonEmptyTextsMembers(items[1..], t);
      assert items == [items[0]] + items[1..];
    }
  }

  /** `Array.isArray(v) ? v : []`. */
  function ArrayItems(v: Json): seq<Json> {
    if v.JArr? then v.items else []
  }

  /** A JSON text codec: `JSON.stringify` and `JSON.parse`, the latter failing with `None`. */
  datatype Codec = Codec(stringify: Json -> string, parse: string -> Option<Json>)

  /** What the model relies on from the real codec: parsing a rendering gives the value
      back, and a rendering has no white space at either end. */
  ghost predicate Lawful(c: Codec) {
    forall v :: c.parse(c.stringify(v)) == Some(v) && Text.IsTrimmed(c.stringify(v))
  }
}
