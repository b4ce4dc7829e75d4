/** The JavaScript values the handlers see after `JSON.parse`, and the parts of the language's
    semantics they rely on: truthiness, property reads, optional chaining, `[0]`, and the
    string conversion a template literal applies to a substituted value. */
module Js {
  import opened Text

  datatype Option<+T> = None | Some(value: T)

  /** How an expression that can throw completes: with a value, or with an error whose
      `message` the handlers' `catch` blocks see. */
  datatype Completion<+T> = Normal(value: T) | Throw(message: string)

  /** A value `JSON.parse` can produce. Numbers are integers here; objects map their keys
      to values (a repeated key keeps its last value, as `JSON.parse` does). */
  datatype Json =
    | Null
    | Bool(b: bool)
    | Number(n: int)
    | Str(s: string)
    | Arr(items: seq<Json>)
    | Obj(fields: map<string, Json>)

  /** A JavaScript value read from a JSON value: `None` is `undefined`. */
  type Value = Option<Json>

  /** `!!v`: `undefined`, `null`, `false`, `0` and `""` are falsy, everything else
      (including `[]` and `{}`) is truthy. */
  predicate Truthy(v: Value) {
    match v
    case None => false
    case Some(Null) => false
    case Some(Bool(b)) => b
    case Some(Number(n)) => n != 0
    case Some(Str(s)) => s != ""
    case Some(_) => true
  }

  /** Truthiness of a string that may be `undefined` (an environment variable). */
  predicate Present(s: Option<string>) {
    s.Some? && s.value != ""
  }

  /** `!v` is true exactly for the five falsy values a JSON-derived value can take. */
  lemma FalsyValues(v: Value)
    ensures !Truthy(v) <==> v in {None, Some(Null), Some(Bool(false)), Some(Number(0)), Some(Str(""))}
  {
  }

  /** `v.name` on a value that is neither `null` nor `undefined`, for the property names the
      handlers use (none is an array index, `length`, or a property any JSON value inherits):
      only an object's own field answers it. */
  function Get(v: Json, name: string): Value {
    if v.Obj? && name in v.fields then Some(v.fields[name]) else None
  }

  /** `v?.name`: `undefined` when `v` is `null` or `undefined`. */
  function OptionalGet(v: Value, name: string): (r: Value)
    ensures v.None? || v == Some(Null) ==> r.None?
    ensures r.Some? <==> v.Some? && v.value.Obj? && name in v.value.fields
    ensures r.Some? ==> r.value == v.value.fields[name]
  {
    match v
    case None => None
    case Some(Null) => None
    case Some(x) => Get(x, name)
  }

  /** `v[0]` on a value that is neither `null` nor `undefined`: the first element of an array,
      the first character of a string, the field named "0" of an object. */
  function ElementZero(v: Json): (r: Value)
    ensures r.Some? <==> (v.Arr? && |v.items| > 0) || (v.Str? && |v.s| > 0) || (v.Obj? && "0" in v.fields)
    ensures v.Arr? && r.Some? ==> r.value == v.items[0]
    ensures v.Str? && r.Some? ==> r.value == Str(v.s[..1])
    ensures v.Obj? && r.Some? ==> r.value == v.fields["0"]
  {
    match v
    case Arr(items) => if |items| > 0 then Some(items[0]) else None
    case Str(s) => if |s| > 0 then Some(Str(s[..1])) else None
    case Obj(fields) => if "0" in fields then Some(fields["0"]) else None
    case _ => None
  }

  /** The message of the TypeError thrown when a property is read from `null` or `undefined`
      (the wording is the engine's; this is V8's). */
  function CannotRead(v: Value, name: string): string
    requires v.None? || v == Some(Null)
  {
    "Cannot read properties of " + (if v.None? then "undefined" else "null") + " (reading '" + name + "')"
  }

  /** The message of the TypeError thrown when calling something that is not a function. */
  function NotAFunction(callee: string): string {
    callee + " is not a function"
  }

  /** The message of the TypeError thrown when an object has no usable `toString`/`valueOf`. */
  const CannotConvertObject := "Cannot convert object to primitive value"

  /** The string a template literal substitutes for a value: `String(v)`. An object converts
      through `Object.prototype.toString` unless it has an own `toString` field, which a JSON
      value can never make callable, and then the conversion throws; an array joins its
      elements with commas, writing `null` elements as nothing. */
  function TemplateString(v: Json): (r: Completion<string>)
    ensures v.Str? ==> r == Normal(v.s)
    ensures r.Throw? ==> r.message == CannotConvertObject && (v.Obj? || v.Arr?)
    decreases v, 1, 0
  {
    match v
    case Null => Normal("null")
    case Bool(b) => Normal(if b then "true" else "false")
    case Number(n) => Normal(IntToString(n))
    case Str(s) => Normal(s)
    case Obj(fields) => if "toString" in fields then Throw(CannotConvertObject) else Normal("[object Object]")
    case Arr(items) => JoinFrom(v, 0)
  }

  /** `Array.prototype.join(",")` over the elements of `a` from index `i` on. */
  function JoinFrom(a: Json, i: nat): (r: Completion<string>)
    requires a.Arr? && i <= |a.items|
    ensures r.Throw? ==> r.message == CannotConvertObject
    ensures i == |a.items| ==> r == Normal("")
    decreases a, 0, |a.items| - i
  {
    if i == |a.items| then Normal("")
    else
      var head := if a.items[i] == Null then Normal("") else TemplateString(a.items[i]);
      match head
      case Throw(m) => Throw(m)
      case Normal(h) =>
        if i + 1 == |a.items| then Normal(h)
        else
          match JoinFrom(a, i + 1)
          case Throw(m) => Throw(m)
          case Normal(t) => Normal(h + "," + t)
  }

  /** Array elements are joined with commas, and a `null` element is written as nothing. */
  lemma JoinStringsAroundNull(x: string, y: string)
    ensures TemplateString(Arr([Str(x), Null, Str(y)])) == Normal(x + ",," + y)
  {
    var a := Arr([Str(x), Null, Str(y)]);
    assert a.items[1] == Null && a.items[2] == Str(y) && |a.items| == 3;
    assert JoinFrom(a, 2) == Normal(y);
    assert "" + "," + y == "," + y;
    assert JoinFrom(a, 1) == Normal("," + y);
    assert x + "," + ("," + y) == x + ",," + y;
  }
}
