/** Python values as the bot sees them after `response.json()`, and the few
    Python operations on them that the bot relies on. An operation that
    raises in Python (AttributeError from `.get` on a non-dict, TypeError
    from `in` or `<` on the wrong type, KeyError from a missing key) yields
    `Raised`; the model does not distinguish the exception classes. */
module PyValues {

  datatype Option<+T> = None | Some(value: T)

  /** The outcome of a Python expression that may raise. */
  datatype Result<+T> = Ok(value: T) | Raised {
    predicate IsFailure() { Raised? }

    function PropagateFailure<U>(): Result<U>
      requires Raised?
    {
      Raised
    }

    function Extract(): T
      requires Ok?
    {
      value
    }
  }

  /** A JSON document as decoded by Python (numbers are integers here). */
  datatype Json =
    | JNull
    | JBool(b: bool)
    | JInt(i: int)
    | JStr(s: string)
    | JArr(items: seq<Json>)
    | JObj(fields: map<string, Json>)

  /** Python truthiness: None, False, 0 and empty containers are false. */
  predicate Truthy(j: Json) {
    match j
    case JNull => false
    case JBool(b) => b
    case JInt(i) => i != 0
    case JStr(s) => s != ""
    case JArr(items) => items != []
    case JObj(fields) => fields != map[]
  }

  /** Truthiness of a value that may be `None`. */
  predicate TruthyOpt(o: Option<Json>) {
    o.Some? && Truthy(o.value)
  }

  /** `j.get(key, default)`: only a dict has `.get`. */
  function Get(j: Json, key: string, default: Json): Result<Json> {
    match j
    case JObj(fields) => Ok(if key in fields then fields[key] else default)
    case _ => Raised
  }

  /** `j[key]` for a string key: a dict that lacks it raises KeyError,
      any other value raises TypeError. */
  function Subscript(j: Json, key: string): Result<Json> {
    if j.JObj? && key in j.fields then Ok(j.fields[key]) else Raised
  }

  /** `key in j` for a string key. */
  function Contains(j: Json, key: string): Result<bool> {
    match j
    case JObj(fields) => Ok(key in fields)
    case JArr(items) => Ok(JStr(key) in items)
    case JStr(s) => Ok(IsSubstring(key, s))
    case _ => Raised
  }

  /** `needle in hay` for two strings. */
  predicate IsSubstring(needle: string, hay: string)
    decreases |hay|
  {
    needle <= hay || (hay != [] && IsSubstring(needle, hay[1..]))
  }

  /** A bool compares as 0 or 1. */
  function BoolAsInt(b: bool): int {
    if b then 1 else 0
  }

  /** `j < n` for an int `n`; comparing None, a string or a container raises. */
  function LessThan(j: Json, n: int): Result<bool> {
    match j
    case JInt(i) => Ok(i < n)
    case JBool(b) => Ok(BoolAsInt(b) < n)
    case _ => Raised
  }

  /** `j >= n` for an int `n`. */
  function AtLeast(j: Json, n: int): Result<bool> {
    match j
    case JInt(i) => Ok(i >= n)
    case JBool(b) => Ok(BoolAsInt(b) >= n)
    case _ => Raised
  }

  /** `j == n` for an int `n`; never raises. */
  predicate EqualsInt(j: Json, n: int) {
    match j
    case JInt(i) => i == n
    case JBool(b) => BoolAsInt(b) == n
    case _ => false
  }

  /** The items seen by `for x in j` when the loop body starts with `x.get(...)`:
      a list gives its items; an empty string or dict gives none; a non-empty
      string or dict gives strings, on which that first `.get` raises; any
      other value is not iterable. */
  function LoopItems(j: Json): Result<seq<Json>> {
    match j
    case JArr(items) => Ok(items)
    case JStr(s) => if s == "" then Ok([]) else Raised
    case JObj(fields) => if fields == map[] then Ok([]) else Raised
    case _ => Raised
  }

  function DigitChar(d: nat): char
    requires d < 10
  {
    "0123456789"[d]
  }

  function NatText(n: nat): string
    decreases n
  {
    if n < 10 then [DigitChar(n)] else NatText(n / 10) + [DigitChar(n % 10)]
  }

  /** `str(j)` inside an f-string. Lists and dicts are shown as a placeholder. */
  function Str(j: Json): string {
    match j
    case JNull => "None"
    case JBool(b) => if b then "True" else "False"
    case JInt(i) => if i < 0 then "-" + NatText(-i) else NatText(i)
    case JStr(s) => s
    case JArr(_) => "[...]"
    case JObj(_) => "{...}"
  }
}
