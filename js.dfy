/** JavaScript values as the proxies and the front end see them once JSON has been
    parsed, and the handful of language rules their code leans on: truthiness,
    property reads, `String(v)` conversion, `Array.prototype.join`,
    `String.prototype.includes`, and the errors the engine throws. */
module Js {

  datatype Option<+T> = None | Some(value: T)

  datatype Result<+T, +E> = Success(value: T) | Failure(error: E)

  /** A value produced by `JSON.parse`, plus `undefined` (an absent property).
      Numbers are integers in this model. */
  datatype JsValue =
    | Undefined
    | Null
    | Bool(b: bool)
    | Num(n: int)
    | Str(s: string)
    | Arr(items: seq<JsValue>)
    | Obj(props: map<string, JsValue>)

  /** What `JSON.parse(text)` or `response.json()` yields: a value, or the
      SyntaxError it throws, with that error's message. */
  datatype JsonText = Parsed(value: JsValue) | Malformed(message: string)

  /** An exception that reaches a `catch`. `Raised` carries a message the code or
      its input supplies; the other three are TypeErrors the engine raises itself,
      whose message text is the engine's. */
  datatype Exception =
    | Raised(message: string)
    | NullAccess(property: string)   // reading `property` of null or undefined
    | NotAFunction(name: string)     // calling a method the value does not have
    | NotIterable                    // `for … of` over a value that is not iterable

  /** `e.message`. A `Raised` exception carries its own text, which may be
      empty; the engine's TypeErrors always have a non-empty message, whose exact
      wording differs between engines (this is V8's form). */
  function Message(e: Exception): (m: string)
    ensures !e.Raised? ==> m != ""
  {
    match e
    case Raised(m) => m
    case NullAccess(p) => "Cannot read properties of null (reading '" + p + "')"
    case NotAFunction(name) => name + " is not a function"
    case NotIterable => "object is not iterable"
  }

  /** `null` or `undefined`: the two values whose properties cannot be read. */
  predicate Nullish(v: JsValue) {
    v.Undefined? || v.Null?
  }

  /** The truth value JavaScript gives `v` in a condition, `!v` or `v || d`. */
  predicate Truthy(v: JsValue) {
    match v
    case Undefined => false
    case Null => false
    case Bool(b) => b
    case Num(n) => n != 0
    case Str(s) => s != ""
    case Arr(_) => true
    case Obj(_) => true
  }

  /** `a || b` */
  function Or(a: JsValue, b: JsValue): JsValue {
    if Truthy(a) then a else b
  }

  /** `v[key]` for a value that is not null or undefined: an own property of an
      object, the `length` of a string or an array, and `undefined` otherwise. */
  function Get(v: JsValue, key: string): JsValue
    requires !Nullish(v)
  {
    match v
    case Obj(props) => if key in props then props[key] else Undefined
    case Str(s) => if key == "length" then Num(|s|) else Undefined
    case Arr(items) => if key == "length" then Num(|items|) else Undefined
    case _ => Undefined
  }

  /** The decimal digit for 0 <= d < 10. */
  function Digit(d: int): char
    requires 0 <= d < 10
  {
    ('0' as int + d) as char
  }

  function NatToString(n: nat): (r: string)
    ensures |r| >= 1
    ensures forall i | 0 <= i < |r| :: '0' <= r[i] <= '9'
  {
    if n < 10 then [Digit(n)] else NatToString(n / 10) + [Digit(n % 10)]
  }

  /** `String(n)` for an integer. */
  function IntToString(n: int): string {
    if n < 0 then "-" + NatToString(-n) else NatToString(n)
  }

  /** `parts.join(sep)` */
  function Join(parts: seq<string>, sep: string): (r: string)
    ensures |parts| == 1 ==> r == parts[0]
  {
    if parts == [] then ""
    else if |parts| == 1 then parts[0]
    else parts[0] + (sep + Join(parts[1..], sep))
  }

  /** Two parts are joined by one separator. */
  lemma JoinTwo(a: string, b: string, sep: string)
    ensures Join([a, b], sep) == a + (sep + b)
  {
    assert [a, b][1..] == [b];
  }

  /** `String(v)`, as a template literal `${v}` or `new Error(v)` applies it:
      arrays join their elements with commas (null and undefined as empty),
      plain objects print as `[object Object]`. */
  function ToString(v: JsValue): string
  {
    match v
    case Undefined => "undefined"
    case Null => "null"
    case Bool(b) => if b then "true" else "false"
    case Num(n) => IntToString(n)
    case Str(s) => s
    case Arr(items) =>
      Join(seq(|items|, i requires 0 <= i < |items| =>
             if Nullish(items[i]) then "" else ToString(items[i])), ",")
    case Obj(_) => "[object Object]"
  }

  /** `sub` occurs in `s` starting at index `i`. */
  predicate OccursAt(s: string, sub: string, i: int) {
    0 <= i <= |s| - |sub| && s[i..i + |sub|] == sub
  }

  /** `s.includes(sub)` */
  predicate Includes(s: string, sub: string) {
    exists i | 0 <= i <= |s| - |sub| :: OccursAt(s, sub, i)
  }
}
