/**
 * The slice of JavaScript value semantics the client's handlers rely on:
 * response bodies as decoded JSON, truthiness, optional chaining (`?.`),
 * strict property access (`.`, which throws on null/undefined), `||`, `??`
 * and the string conversion used by template literals.
 */
module Js {

  datatype Option<+T> = None | Some(value: T)

  /** A decoded response body or any value read out of one. Numbers are
      integers here; every number the core reads is an id-free counter or a
      flag, never a fraction. */
  datatype Json =
    | Undefined
    | Null
    | Bool(b: bool)
    | Num(n: int)
    | Str(s: string)
    | Arr(items: seq<Json>)
    | Obj(fields: map<string, Json>)

  /** `!!j` */
  predicate Truthy(j: Json) {
    match j
    case Undefined => false
    case Null => false
    case Bool(b) => b
    case Num(n) => n != 0
    case Str(s) => s != ""
    case Arr(_) => true
    case Obj(_) => true
  }

  /** `j === null || j === undefined`, the test behind `?.` and `??` */
  predicate Nullish(j: Json) {
    j.Undefined? || j.Null?
  }

  /** `j?.key`. Only object fields are read: the keys the client asks for
      (`data`, `user`, `_id`, `videos`, ...) are never own properties of
      strings, arrays, numbers or booleans. */
  function Get(j: Json, key: string): (r: Json)
    ensures Nullish(j) ==> r == Undefined
    ensures r != Undefined ==> j.Obj? && key in j.fields && r == j.fields[key]
  {
    if j.Obj? && key in j.fields then j.fields[key] else Undefined
  }

  /** `j.key`: a TypeError (None) when `j` is null or undefined, otherwise
      the same value as `j?.key`. */
  function Member(j: Json, key: string): (r: Option<Json>)
    ensures r.None? <==> Nullish(j)
    ensures r.Some? ==> r.value == Get(j, key)
  {
    if Nullish(j) then None else Some(Get(j, key))
  }

  /** `j?.[0]` */
  function First(j: Json): (r: Json)
    ensures Nullish(j) ==> r == Undefined
    ensures j.Arr? ==> r == (if |j.items| > 0 then j.items[0] else Undefined)
  {
    match j
    case Arr(items) => if |items| > 0 then items[0] else Undefined
    case Str(s) => if |s| > 0 then Str(s[..1]) else Undefined
    case Obj(fields) => if "0" in fields then fields["0"] else Undefined
    case _ => Undefined
  }

  /** `a || b` */
  function Or(a: Json, b: Json): (r: Json)
    ensures Truthy(a) ==> r == a
    ensures !Truthy(a) ==> r == b
  {
    if Truthy(a) then a else b
  }

  /** `a ?? b` */
  function Coalesce(a: Json, b: Json): (r: Json)
    ensures Nullish(a) ==> r == b
    ensures !Nullish(a) ==> r == a
  {
    if Nullish(a) then b else a
  }

  /** The decimal text `String(n)` gives for an integer. */
  function IntText(n: int): (r: string)
    ensures |r| > 0
    ensures n < 0 <==> r[0] == '-'
  {
    if n < 0 then "-" + NatText(-n) else NatText(n)
  }

  function NatText(n: nat): (r: string)
    ensures |r| > 0
    ensures forall i :: 0 <= i < |r| ==> '0' <= r[i] <= '9'
    ensures |r| > 1 ==> r[0] != '0'
  {
    if n < 10 then [DigitChar(n)] else NatText(n / 10) + [DigitChar(n % 10)]
  }

  function DigitChar(d: nat): (c: char)
    requires d < 10
    ensures '0' <= c <= '9'
    ensures c as int - '0' as int == d
  {
    (d + '0' as int) as char
  }

  /** `String(j)`, as a template literal `${j}` renders it. */
  function ToText(j: Json): string
    decreases j
  {
    match j
    case Undefined => "undefined"
    case Null => "null"
    case Bool(b) => if b then "true" else "false"
    case Num(n) => IntText(n)
    case Str(s) => s
    case Obj(_) => "[object Object]"
    case Arr(items) =>
      // Array.prototype.join(","): null and undefined elements print as ""
      Join(seq(|items|, i requires 0 <= i < |items| =>
             if Nullish(items[i]) then "" else ToText(items[i])))
  }

  function Join(parts: seq<string>): (r: string)
    ensures parts == [] ==> r == ""
    ensures |parts| == 1 ==> r == parts[0]
  {
    if parts == [] then ""
    else if |parts| == 1 then parts[0]
    else Join(parts[..|parts| - 1]) + "," + parts[|parts| - 1]
  }
}
