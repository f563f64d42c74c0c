/** Optional values: Python's `None` versus a present value. */
module Wrappers {

  datatype Option<+T> = None | Some(value: T)
}

/** String helpers with the meaning Python gives them. */
module Text {

  /** `s.startswith(prefix)`. */
  predicate HasPrefix(s: string, prefix: string) {
    |prefix| <= |s| && s[..|prefix|] == prefix
  }

  /** `sub in s` for two strings: a substring test. */
  predicate Contains(s: string, sub: string)
    decreases |s|
  {
    HasPrefix(s, sub) || (s != [] && Contains(s[1..], sub))
  }

  function DigitChar(d: nat): char
    requires d < 10
  {
    "0123456789"[d]
  }

  /** Decimal digits of a natural number, most significant first. */
  function Digits(n: nat): string
    decreases n
  {
    if n < 10 then [DigitChar(n)] else Digits(n / 10) + [DigitChar(n % 10)]
  }

  /** `str(n)` for a Python int. */
  function DecimalString(n: int): string {
    if n < 0 then "-" + Digits(-n) else Digits(n)
  }
}

/** The values `json.loads` produces, and the few Python operations the
  * relay applies to them: truthiness, `str()`, dictionary `get`, and the
  * texts of the exceptions raised when a value has the wrong type. */
module Json {
  import opened Wrappers
  import opened Text

  /** A decoded JSON value. Floats are not modelled. For lists and objects,
    * `text` is what Python's `str()` prints for the value: it depends on key
    * order and on repr escaping, so the decoder supplies it. */
  datatype Json =
    | JNull
    | JBool(b: bool)
    | JNum(n: int)
    | JStr(s: string)
    | JArray(items: seq<Json>, text: string)
    | JObject(fields: map<string, Json>, text: string)

  /** The `{}` literal used as a default by `dict.get`. */
  const EmptyObject: Json := JObject(map[], "{}")

  /** Python's truth value of the decoded object. */
  predicate Truthy(j: Json) {
    match j
    case JNull => false
    case JBool(b) => b
    case JNum(n) => n != 0
    case JStr(s) => s != ""
    case JArray(items, _) => items != []
    case JObject(fields, _) => fields != map[]
  }

  /** `type(j).__name__`. */
  function TypeName(j: Json): string {
    match j
    case JNull => "NoneType"
    case JBool(_) => "bool"
    case JNum(_) => "int"
    case JStr(_) => "str"
    case JArray(_, _) => "list"
    case JObject(_, _) => "dict"
  }

  /** `str(j)`, which is also what an f-string interpolates. */
  function Show(j: Json): string {
    match j
    case JNull => "None"
    case JBool(b) => if b then "True" else "False"
    case JNum(n) => DecimalString(n)
    case JStr(s) => s
    case JArray(_, text) => text
    case JObject(_, text) => text
  }

  /** `d.get(key)`. */
  function Get(fields: map<string, Json>, key: string): Option<Json> {
    if key in fields then Some(fields[key]) else None
  }

  /** `d.get(key, default)`. */
  function GetOr(fields: map<string, Json>, key: string, default: Json): Json {
    if key in fields then fields[key] else default
  }

  // Texts of the exceptions CPython 3.12 raises on the operations the relay
  // applies to decoded values of the wrong type.

  /** `"error" in v` for a number, a boolean or None. */
  function NotIterableMessage(v: Json): string {
    "argument of type '" + TypeName(v) + "' is not iterable"
  }

  /** `v["error"]` for a string. */
  const StringIndexMessage: string := "string indices must be integers, not 'str'"

  /** `v["error"]` for a list. */
  const ListIndexMessage: string := "list indices must be integers or slices, not str"

  /** `v.get(...)` for anything but a dict. */
  function NoGetMessage(v: Json): string {
    "'" + TypeName(v) + "' object has no attribute 'get'"
  }

  /** `acc += v` for a string `acc` and a `v` that is not a string. */
  function ConcatMessage(v: Json): string {
    "can only concatenate str (not \"" + TypeName(v) + "\") to str"
  }
}
