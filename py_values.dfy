/**
 * The Python values that can appear in the dictionary the remote agent
 * service returns, and the three pieces of Python semantics the
 * normaliser relies on: truthiness, the short-circuit `or`, and `dict.get`.
 */
module PyValues {

  /** A Python value as decoded from a service response. */
  datatype Value =
    | PyNone
    | PyBool(b: bool)
    | PyInt(i: int)
    | PyStr(s: string)
    | PyBytes(data: seq<bv8>)
    | PyList(items: seq<Value>)
    | PyDict(entries: map<string, Value>)

  /** The falsy values: `None`, `False`, zero and the empty string, bytes, list and dictionary. */
  const Falsy: set<Value> := {PyNone, PyBool(false), PyInt(0), PyStr(""), PyBytes([]), PyList([]), PyDict(map[])}

  /** Python's truth value: a value is truthy unless it is one of the falsy values. */
  predicate Truthy(v: Value)
    ensures Truthy(v) <==> v !in Falsy
  {
    match v
    case PyNone => false
    case PyBool(b) => b
    case PyInt(i) => i != 0
    case PyStr(s) => |s| > 0
    case PyBytes(data) => |data| > 0
    case PyList(items) => |items| > 0
    case PyDict(entries) => |entries| > 0
  }

  /** Python's `a or b`: the left operand when it is truthy, otherwise the right one. */
  function Or(a: Value, b: Value): (r: Value)
    ensures Truthy(r) <==> Truthy(a) || Truthy(b)
    ensures r == a || r == b
    ensures Truthy(a) ==> r == a
    ensures !Truthy(a) ==> r == b
  {
    if Truthy(a) then a else b
  }

  /** Python's `d.get(key)`: the stored value, or `None` when the key is absent. */
  function Get(d: map<string, Value>, key: string): (r: Value)
    ensures key in d ==> r == d[key]
    ensures key !in d ==> r == PyNone
  {
    if key in d then d[key] else PyNone
  }
}
