/**
 * Parsed JSON bodies as Python sees them after `resp.json()`, and the Python
 * operations the core applies to them: truthiness, `len`, `in`, `.get`,
 * subscripting, `>`, iteration and `str()`.  An operation that would raise
 * returns `Err` with the kind of exception.
 */
module PyValues {
  import opened Wrappers
  import opened Text
  import opened Dicts

  /** A JSON document; numbers are integers (floating point is not modelled). */
  datatype Json =
    | JNull
    | JBool(b: bool)
    | JInt(n: int)
    | JStr(s: string)
    | JList(items: seq<Json>)
    | JObject(fields: seq<(string, Json)>)

  /** The Python exceptions the modelled code can run into. */
  datatype Fault =
    | TypeFault                      // TypeError
    | AttributeFault                 // AttributeError, e.g. `.get` on a non-dict
    | KeyFault(key: string)          // KeyError
    | IndexFault                     // IndexError
    | DecodeFault                    // the body is not JSON
    | RequestTimeout                 // requests.exceptions.Timeout
    | NetworkFault(detail: string)   // any other transport failure
    | OsFault(detail: string)        // an operating-system error (spawning, writing)

  /** Python truthiness of a JSON value. */
  predicate Truthy(v: Json) {
    match v
    case JNull => false
    case JBool(b) => b
    case JInt(n) => n != 0
    case JStr(s) => s != []
    case JList(items) => items != []
    case JObject(fields) => fields != []
  }

  /** `d[key]` on a dict decoded from JSON: a repeated key keeps its last value. */
  function Lookup(fields: seq<(string, Json)>, key: string): (r: Option<Json>)
    ensures r.Some? <==> key in Keys(fields)
    ensures r.Some? ==> exists i :: 0 <= i < |fields| && fields[i] == (key, r.value)
  {
    if fields == [] then None
    else if fields[|fields| - 1].0 == key then Some(fields[|fields| - 1].1)
    else
      var r := Lookup(fields[..|fields| - 1], key);
      assert Keys(fields) == Keys(fields[..|fields| - 1]) + [fields[|fields| - 1].0];
      r
  }

  /** `len(v)`: defined on lists, dicts and strings only. */
  function Len(v: Json): (r: Result<nat, Fault>)
    ensures r.Ok? <==> v.JList? || v.JObject? || v.JStr?
    ensures v.JList? ==> r == Ok(|v.items|)
  {
    match v
    case JList(items) => Ok(|items|)
    case JObject(fields) => Ok(|fields|)
    case JStr(s) => Ok(|s|)
    case _ => Err(TypeFault)
  }

  /** `key in v` for a string `key`: a dict key, a list element or a substring. */
  function Contains(key: string, v: Json): (r: Result<bool, Fault>)
    ensures v.JObject? ==> r == Ok(key in Keys(v.fields))
    ensures v.JList? ==> r == Ok(JStr(key) in v.items)
    ensures r.Err? <==> !(v.JObject? || v.JList? || v.JStr?)
  {
    match v
    case JObject(fields) => Ok(key in Keys(fields))
    case JList(items) => Ok(JStr(key) in items)
    case JStr(s) => Ok(HasSubstring(s, key))
    case _ => Err(TypeFault)
  }

  /** `v.get(key, default)`: only dicts have `.get`. */
  function Get(v: Json, key: string, default: Json): (r: Result<Json, Fault>)
    ensures r.Ok? <==> v.JObject?
    ensures v.JObject? && key !in Keys(v.fields) ==> r == Ok(default)
    ensures v.JObject? && key in Keys(v.fields) ==> r == Ok(Lookup(v.fields, key).value)
  {
    match v
    case JObject(fields) =>
      (match Lookup(fields, key)
       case Some(x) => Ok(x)
       case None => Ok(default))
    case _ => Err(AttributeFault)
  }

  /** `v[key]` with a string key: a dict lookup; lists and strings reject string indices. */
  function Subscript(v: Json, key: string): (r: Result<Json, Fault>)
    ensures r.Ok? <==> v.JObject? && key in Keys(v.fields)
  {
    match v
    case JObject(fields) =>
      (match Lookup(fields, key)
       case Some(x) => Ok(x)
       case None => Err(KeyFault(key)))
    case _ => Err(TypeFault)
  }

  predicate IsNumber(v: Json) {
    v.JInt? || v.JBool?
  }

  function NumberValue(v: Json): int
    requires IsNumber(v)
  {
    if v.JInt? then v.n else if v.b then 1 else 0
  }

  /**
   * `a > b`: strings compare by code point, numbers (with booleans as 0 and 1)
   * numerically; every other pair raises.
   */
  function Gt(a: Json, b: Json): (r: Result<bool, Fault>)
    ensures a.JStr? && b.JStr? ==> r == Ok(StrLt(b.s, a.s))
    ensures r.Ok? <==> (a.JStr? && b.JStr?) || (IsNumber(a) && IsNumber(b))
  {
    if a.JStr? && b.JStr? then Ok(StrLt(b.s, a.s))
    else if IsNumber(a) && IsNumber(b) then Ok(NumberValue(a) > NumberValue(b))
    else Err(TypeFault)
  }

  /** The items `for x in v` visits: list elements, dict keys, or one-character strings. */
  function Iterate(v: Json): (r: Result<seq<Json>, Fault>)
    ensures r.Ok? <==> v.JList? || v.JObject? || v.JStr?
    ensures v.JList? ==> r == Ok(v.items)
    ensures v.JStr? ==> r.Ok? && |r.value| == |v.s| && forall i :: 0 <= i < |v.s| ==> r.value[i] == JStr([v.s[i]])
  {
    match v
    case JList(items) => Ok(items)
    case JObject(fields) => Ok(seq(|fields|, i requires 0 <= i < |fields| => JStr(fields[i].0)))
    case JStr(s) => Ok(seq(|s|, i requires 0 <= i < |s| => JStr([s[i]])))
    case _ => Err(TypeFault)
  }

  function Join(parts: seq<string>, sep: string): string {
    if parts == [] then ""
    else if |parts| == 1 then parts[0]
    else parts[0] + sep + Join(parts[1..], sep)
  }

  /**
   * `repr(v)` as Python prints a decoded JSON value; strings are always quoted
   * with `'` and not escaped.
   */
  function Repr(v: Json): string
    decreases v, 0
  {
    match v
    case JNull => "None"
    case JBool(b) => if b then "True" else "False"
    case JInt(n) => IntToString(n)
    case JStr(s) => "'" + s + "'"
    case JList(items) =>
      "[" + Join(seq(|items|, i requires 0 <= i < |items| => Repr(items[i])), ", ") + "]"
    case JObject(fields) =>
      "{" + Join(seq(|fields|, i requires 0 <= i < |fields| =>
                   "'" + fields[i].0 + "': " + Repr(fields[i].1)), ", ") + "}"
  }

  /** `str(v)`: a string is itself, everything else its repr. */
  function ToStr(v: Json): (r: string)
    ensures v.JStr? ==> r == v.s
  {
    if v.JStr? then v.s else Repr(v)
  }
}
