/** JSON values as `JSON.parse` returns them, and the few JavaScript
    coercions the model applies to them: property access, truthiness,
    `String(v)` and `Number(v)`. */
module JsonValues {
  import opened Wrappers
  import opened Seqs
  import opened Strings

  /** A parsed JSON value. Numbers are reals; the order of an object's keys
      is not observed by the model. */
  datatype Json =
    | Null
    | Bool(b: bool)
    | Num(n: real)
    | Str(s: string)
    | Arr(elems: seq<Json>)
    | Obj(fields: map<string, Json>)

  /** `v?.[key]`: `None` stands for `undefined`, which is what a missing
      value, a non-object and an absent key give. */
  function Field(v: Option<Json>, key: string): (r: Option<Json>)
    ensures r.Some? <==> v.Some? && v.value.Obj? && key in v.value.fields
  {
    if v.Some? && v.value.Obj? && key in v.value.fields then Some(v.value.fields[key]) else None
  }

  /** `Array.isArray(v)`. */
  predicate IsArray(v: Option<Json>)
  {
    v.Some? && v.value.Arr?
  }

  /** The elements of an array, and nothing for anything else. */
  function ElemsOf(v: Option<Json>): seq<Json>
  {
    if IsArray(v) then v.value.elems else []
  }

  /** `!!v`. JSON numbers are never `NaN`. */
  predicate Truthy(v: Option<Json>)
  {
    match v
    case None => false
    case Some(x) =>
      match x
      case Null => false
      case Bool(b) => b
      case Num(n) => n != 0.0
      case Str(s) => s != ""
      case _ => true
  }

  /** `v && typeof v === "object"`: an array or an object. */
  predicate IsObjectLike(v: Option<Json>)
  {
    v.Some? && (v.value.Arr? || v.value.Obj?)
  }

  /** The string a `typeof v === "string"` test accepts. */
  function StringOf(v: Option<Json>): (r: Option<string>)
    ensures r.Some? <==> v.Some? && v.value.Str?
  {
    if v.Some? && v.value.Str? then Some(v.value.s) else None
  }

  /** `String(v)`. `numStr` is `Number.prototype.toString`; an array is
      joined with `,`, its `null` elements written as nothing. */
  function JsString(v: Json, numStr: real -> string): string
  {
    match v
    case Null => "null"
    case Bool(b) => if b then "true" else "false"
    case Num(n) => numStr(n)
    case Str(s) => s
    case Obj(_) => "[object Object]"
    case Arr(xs) =>
      Join(seq(|xs|, i requires 0 <= i < |xs| => if xs[i].Null? then "" else JsString(xs[i], numStr)), ",")
  }

  /** `Number(v)`, `None` standing for a result that is not finite (`NaN`
      included). `numOfString` is the conversion of a string; arrays and
      objects convert through `String(v)`, as `ToPrimitive` does for them. */
  function ToNumber(v: Option<Json>, numOfString: string -> Option<real>, numStr: real -> string): (r: Option<real>)
    ensures v.Some? && v.value.Num? ==> r == Some(v.value.n)
    ensures v.Some? && v.value.Null? ==> r == Some(0.0)
    ensures v.None? ==> r.None?
    ensures v.Some? && v.value.Str? ==> r == numOfString(v.value.s)
  {
    match v
    case None => None
    case Some(x) =>
      match x
      case Null => Some(0.0)
      case Bool(b) => Some(if b then 1.0 else 0.0)
      case Num(n) => Some(n)
      case _ => numOfString(JsString(x, numStr))
  }
}
