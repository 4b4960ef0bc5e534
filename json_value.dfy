/**
 * Decoded JSON values as the Python code sees them (`dict`, `list`, `str`, `int`, `bool`,
 * `None`), with the few Python built-ins the core applies to them: truthiness,
 * `dict.get(key, default)`, `int(x)`, `len(x)` and `str(x)`.
 */
module JsonValue {
  import opened Wrappers
  import Text

  datatype Json =
    | JNull
    | JBool(b: bool)
    | JInt(i: int)
    | JStr(s: string)
    | JArr(items: seq<Json>)
    | JObj(fields: map<string, Json>)

  /** Python's `bool(x)`: `None`, `False`, `0`, empty strings, lists and dicts are false. */
  predicate Truthy(j: Json)
  {
    match j
    case JNull => false
    case JBool(b) => b
    case JInt(i) => i != 0
    case JStr(s) => s != ""
    case JArr(items) => items != []
    case JObj(fields) => fields != map[]
  }

  /** `d.get(key, default)` on a dict; also `os.getenv(key, default)` over the environment. */
  function GetOr<V>(d: map<string, V>, key: string, default: V): (r: V)
    ensures key in d ==> r == d[key]
    ensures key !in d ==> r == default
  {
    if key in d then d[key] else default
  }

  /** `d.get(key)`: `None` when the key is absent. */
  function Get(d: map<string, Json>, key: string): Json
  {
    GetOr(d, key, JNull)
  }

  /** Python's `int(x)`; `None` stands for the `ValueError`/`TypeError` it raises. */
  function PyInt(j: Json): Option<int>
  {
    match j
    case JInt(i) => Some(i)
    case JBool(b) => Some(if b then 1 else 0)
    case JStr(s) => Text.ParseInt(s)
    case _ => None
  }

  /** Python's `len(x)`; `None` stands for the `TypeError` it raises. */
  function PyLen(j: Json): Option<nat>
  {
    match j
    case JStr(s) => Some(|s|)
    case JArr(items) => Some(|items|)
    case JObj(fields) => Some(|fields|)
    case _ => None
  }

  /** Python's `str(x)` for the scalar values; containers are rendered by a fixed marker. */
  function Display(j: Json): string
  {
    match j
    case JNull => "None"
    case JBool(b) => if b then "True" else "False"
    case JInt(i) => Text.IntToString(i)
    case JStr(s) => s
    case JArr(_) => "[...]"
    case JObj(_) => "{...}"
  }

  /** A JSON list whose members are all strings, as `isinstance(s, str)` checks it. */
  predicate IsStringList(j: Json)
  {
    j.JArr? && forall k :: 0 <= k < |j.items| ==> j.items[k].JStr?
  }

  function Strings(j: Json): (r: seq<string>)
    requires IsStringList(j)
    ensures |r| == |j.items|
    ensures forall k :: 0 <= k < |r| ==> j.items[k] == JStr(r[k])
  {
    seq(|j.items|, k requires 0 <= k < |j.items| => j.items[k].s)
  }
}
