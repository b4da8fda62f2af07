/** JSON values as both halves of the system exchange them, with the parts of JavaScript's and
    Python's semantics the core relies on: truthiness, property reads, `dict.get`, and the
    conversion of a value to text. */
module Json {
  import opened Wrappers
  import Text

  /** A JSON value. Numbers are integers; an object's member order is not kept. */
  datatype Json =
    | Null
    | Bool(b: bool)
    | Num(n: int)
    | Str(s: string)
    | Arr(items: seq<Json>)
    | Obj(fields: map<string, Json>)

  /** JavaScript's ToBoolean on a value; `undefined` is `None`. */
  predicate JsTruthy(v: Option<Json>) {
    v.Some? && JsTruthyValue(v.value)
  }

  /** JavaScript's ToBoolean on a defined value: arrays and objects are truthy even when empty. */
  predicate JsTruthyValue(v: Json) {
    match v
    case Null => false
    case Bool(b) => b
    case Num(n) => n != 0
    case Str(s) => s != ""
    case _ => true
  }

  /** Python's truth value: `None`, `False`, zero and empty strings, lists and dicts are false. */
  predicate PyTruthy(v: Json) {
    match v
    case Null => false
    case Bool(b) => b
    case Num(n) => n != 0
    case Str(s) => s != ""
    case Arr(xs) => xs != []
    case Obj(m) => m != map[]
  }

  /** `d.get(k)` on a Python dict: `None` for a missing key. */
  function PyGet(d: map<string, Json>, k: string): (r: Json)
    ensures k !in d ==> r == Null
    ensures k in d ==> r == d[k]
  {
    if k in d then d[k] else Null
  }

  /** Drops the members whose value is `None`, as `{k: v for k, v in d.items() if v is not None}`. */
  function WithoutNulls(d: map<string, Json>): (r: map<string, Json>)
    ensures forall k :: k in r <==> k in d && d[k] != Null
    ensures forall k :: k in r ==> r[k] == d[k]
  {
    map k | k in d && d[k] != Null :: d[k]
  }

  /** The message of the TypeError JavaScript raises when reading property `k` of null or
      undefined. */
  function ReadError(what: string, k: string): string {
    "Cannot read properties of " + what + " (reading '" + k + "')"
  }

  /** The property read `v.k`: it throws on null and undefined; arrays and strings have a
      `length`; no other property of a non-object is modelled, so it reads as undefined. */
  function JsMember(v: Option<Json>, k: string): (r: Result<Option<Json>, string>)
    ensures r.Failure? <==> !(v.Some? && v.value != Null)
    ensures v.Some? && v.value.Obj? ==> r == Success(if k in v.value.fields then Some(v.value.fields[k]) else None)
  {
    match v
    case None => Failure(ReadError("undefined", k))
    case Some(Null) => Failure(ReadError("null", k))
    case Some(Obj(m)) => Success(if k in m then Some(m[k]) else None)
    case Some(Arr(xs)) => Success(if k == "length" then Some(Num(|xs|)) else None)
    case Some(Str(s)) => Success(if k == "length" then Some(Num(|s|)) else None)
    case Some(_) => Success(None)
  }

  /** The optional-chained read `v?.k`: undefined when `v` is null or undefined. */
  function JsOptMember(v: Option<Json>, k: string): (r: Option<Json>)
    ensures v.None? || v == Some(Null) ==> r.None?
    ensures v.Some? && v.value.Obj? && k in v.value.fields ==> r == Some(v.value.fields[k])
  {
    match JsMember(v, k)
    case Success(x) => x
    case Failure(_) => None
  }

  /** The string JavaScript's ToString gives a value, as in a template literal or when the value
      becomes the message of `new Error(value)`. */
  function JsString(v: Json): string
    decreases v, 1
  {
    match v
    case Null => "null"
    case Bool(b) => if b then "true" else "false"
    case Num(n) => Text.Decimal(n)
    case Str(s) => s
    case Arr(xs) => JsJoinItems(v, xs)
    case Obj(_) => "[object Object]"
  }

  /** `Array.prototype.join(",")` over the items of array `whole`: null items print as empty. */
  function JsJoinItems(ghost whole: Json, xs: seq<Json>): string
    requires forall i :: 0 <= i < |xs| ==> xs[i] < whole
    decreases whole, 0, |xs|
  {
    if xs == [] then ""
    else
      var head := if xs[0] == Null then "" else JsString(xs[0]);
      if |xs| == 1 then head else head + "," + JsJoinItems(whole, xs[1..])
  }

  /** Python's `str(v)` for the scalar values the core formats; a list or dict prints as a
      placeholder. */
  function PyStr(v: Json): string {
    match v
    case Null => "None"
    case Bool(b) => if b then "True" else "False"
    case Num(n) => Text.Decimal(n)
    case Str(s) => s
    case Arr(_) => "[...]"
    case Obj(_) => "{...}"
  }

  /** The string a JavaScript error message `err.message` holds, or the fallback used by the
      pattern `err.message || fallback`. */
  function MessageOr(message: string, fallback: string): (r: string)
    ensures message != "" ==> r == message
    ensures message == "" ==> r == fallback
  {
    if message != "" then message else fallback
  }
}
