/** Parsed JSON values as the importer sees them at run time, together with
    the JavaScript coercions the importer relies on: truthiness, the
    nullish test, `||`, `??` and `!!`. Numbers are integers (no floating
    point, no NaN). */
module Js {

  datatype Json =
    | JNull
    | JUndef
    | JBool(b: bool)
    | JNum(n: int)
    | JStr(s: string)
    | JArr(items: seq<Json>)
    | JObj(fields: map<string, Json>)

  /** What a failing statement throws: an `Error` built by the importer
      with its message, or a run-time `TypeError` raised by the language. */
  datatype Thrown =
    | Error(message: string)
    | TypeError(cause: TypeErrorCause)

  datatype TypeErrorCause =
    | NotAFunction(name: string)     // `v.name(...)` where `v.name` is not a function
    | ReadOfNullish(property: string) // `v.property` where `v` is null or undefined

  /** `!!v`: false exactly for undefined, null, false, 0 and the empty string. */
  predicate Truthy(v: Json) {
    match v
    case JNull => false
    case JUndef => false
    case JBool(b) => b
    case JNum(n) => n != 0
    case JStr(s) => s != ""
    case JArr(_) => true
    case JObj(_) => true
  }

  /** `v == null` (loose equality): null or undefined. */
  predicate Nullish(v: Json) {
    v.JNull? || v.JUndef?
  }

  /** `a || b`: the left operand when it is truthy, otherwise the right one. */
  function Or(a: Json, b: Json): Json {
    if Truthy(a) then a else b
  }

  /** `a ?? b`: the left operand unless it is null or undefined. */
  function Coalesce(a: Json, b: Json): Json {
    if Nullish(a) then b else a
  }

  /** `!!v` as a JSON boolean. */
  function DoubleNot(v: Json): Json {
    JBool(Truthy(v))
  }

  /** `o.k` on a value that is not null or undefined: an own field of an
      object, and undefined on every other kind of value (the fields the
      importer reads are not properties of strings, numbers or arrays). */
  function Get(o: Json, k: string): Json {
    if o.JObj? && k in o.fields then o.fields[k] else JUndef
  }

  /** `o?.k`: undefined when `o` is null or undefined, otherwise `o.k`. */
  function OptGet(o: Json, k: string): Json {
    if Nullish(o) then JUndef else Get(o, k)
  }

  /** `Array.isArray(v) ? v : [v]`: the entries of a payload. */
  function AsList(v: Json): (r: seq<Json>)
    ensures v.JArr? ==> r == v.items
    ensures !v.JArr? ==> r == [v]
  {
    if v.JArr? then v.items else [v]
  }

  /** `String(v)`, as a template literal `${v}` renders a value. */
  function ToText(v: Json): string
  {
    match v
    case JNull => "null"
    case JUndef => "undefined"
    case JBool(b) => if b then "true" else "false"
    case JNum(n) => if n < 0 then "-" + NatText(-n) else NatText(n)
    case JStr(s) => s
    case JArr(xs) => JoinText(xs)
    case JObj(_) => "[object Object]"
  }

  /** `xs.join(',')`, where null and undefined elements render as ''. */
  function JoinText(xs: seq<Json>): string
    decreases xs
  {
    if xs == [] then ""
    else
      var head := if Nullish(xs[0]) then "" else ToText(xs[0]);
      if |xs| == 1 then head else head + "," + JoinText(xs[1..])
  }

  /** Decimal digits of a natural number. */
  function NatText(n: nat): (r: string)
    ensures |r| > 0
    ensures forall i :: 0 <= i < |r| ==> '0' <= r[i] <= '9'
  {
    var d := ['0' + (n % 10) as char];
    if n < 10 then d else NatText(n / 10) + d
  }

  /** `||` and `??` agree except on a value that is present but falsy
      (false, 0, ''): there `??` keeps it and `||` replaces it. */
  lemma CoalesceVersusOr(a: Json, b: Json)
    ensures Nullish(a) ==> Or(a, b) == b && Coalesce(a, b) == b
    ensures Truthy(a) ==> Or(a, b) == a && Coalesce(a, b) == a
    ensures !Nullish(a) && !Truthy(a) ==> Coalesce(a, b) == a && Or(a, b) == b
    ensures Or(a, b) != Coalesce(a, b) <==> !Nullish(a) && !Truthy(a) && a != b
  {
  }

  /** The only falsy values that are not nullish are false, 0 and ''. */
  lemma PresentFalsyValues(a: Json)
    ensures !Nullish(a) && !Truthy(a) <==> a in {JBool(false), JNum(0), JStr("")}
  {
  }

  /** `x || d` with a truthy default is always truthy; `x ?? d` with a
      non-nullish default is never nullish. */
  lemma DefaultsNeverMissing(a: Json, d: Json)
    ensures Truthy(d) ==> Truthy(Or(a, d))
    ensures !Nullish(d) ==> !Nullish(Coalesce(a, d))
    ensures !Nullish(Or(a, JNum(0)))
  {
  }
}
